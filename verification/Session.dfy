/** Stream slots of a session: add, check, and undo, by any number of threads, one atomic operation a step. */
module Admission {
  import opened Bytes

  /** 0 switches a limit off. */
  datatype Limits = Limits(maxStreams: u32, serverMax: nat)

  datatype Phase =
    | Idle
    | Undoing            // over a limit, about to subtract again
    | Peaking(cur: nat)  // let in, about to raise the peak
    | Held

  datatype State = State(
    limits: Limits,
    active: u32,
    peak: u32,
    threads: map<nat, Phase>,
    most: nat            // the most slots ever held at once (history)
  )

  datatype Step = FetchAdd(t: nat) | FetchSub(t: nat) | FetchMax(t: nat) | Release(t: nat)

  const WRAP: nat := 0x1_0000_0000

  predicate Over(l: Limits, cur: nat) {
    (l.maxStreams > 0 && cur >= l.maxStreams) || (l.serverMax > 0 && cur >= l.serverMax)
  }

  /** The smaller limit of those that are on. */
  function Cap(l: Limits): Option<nat> {
    if l.maxStreams == 0 && l.serverMax == 0 then None
    else if l.maxStreams == 0 then Some(l.serverMax)
    else if l.serverMax == 0 then Some(l.maxStreams)
    else Some(if l.maxStreams <= l.serverMax then l.maxStreams else l.serverMax)
  }

  lemma OverIff(l: Limits, cur: nat)
    ensures Over(l, cur) <==> Cap(l).Some? && cur >= Cap(l).value
  {
  }

  function Busy(s: State): set<nat> {
    set t | t in s.threads && !s.threads[t].Idle?
  }

  /** Calls that have a slot. */
  function Slots(s: State): set<nat> {
    set t | t in s.threads && (s.threads[t].Held? || s.threads[t].Peaking?)
  }

  function Undoings(s: State): set<nat> {
    set t | t in s.threads && s.threads[t].Undoing?
  }

  predicate Enabled(s: State, a: Step) {
    a.t in s.threads &&
    match a
    case FetchAdd(t) => s.threads[t].Idle?
    case FetchSub(t) => s.threads[t].Undoing?
    case FetchMax(t) => s.threads[t].Peaking?
    case Release(t) => s.threads[t].Held?
  }

  function Max(a: nat, b: nat): nat {
    if a >= b then a else b
  }

  function Apply(s: State, a: Step): State
    requires Enabled(s, a)
  {
    match a
    case FetchAdd(t) =>
      var phase := if Over(s.limits, s.active) then Undoing else Peaking(s.active);
      var s' := s.(active := (s.active + 1) % WRAP, threads := s.threads[t := phase]);
      s'.(most := Max(s.most, |Slots(s')|))
    case FetchSub(t) => s.(active := (s.active - 1) % WRAP, threads := s.threads[t := Idle])
    case FetchMax(t) => s.(peak := Max(s.peak, s.threads[t].cur + 1) % WRAP, threads := s.threads[t := Held])
    case Release(t) => s.(active := (s.active - 1) % WRAP, threads := s.threads[t := Idle])
  }

  /** The largest count that is recorded as the peak, or is about to be. */
  predicate Recorded(s: State, n: nat) {
    n <= s.peak || exists t :: t in s.threads && s.threads[t].Peaking? && n <= s.threads[t].cur + 1
  }

  predicate Inv(s: State) {
    && |s.threads| < WRAP
    && s.active == |Busy(s)|
    && (Cap(s.limits).Some? ==> |Slots(s)| <= Cap(s.limits).value && s.peak <= Cap(s.limits).value)
    && (forall t :: t in s.threads && s.threads[t].Peaking? ==> s.threads[t].cur + 1 < WRAP && !Over(s.limits, s.threads[t].cur))
    && Recorded(s, s.most) && |Slots(s)| <= s.most
  }

  lemma Subset(a: set<nat>, b: set<nat>)
    requires a <= b
    ensures |a| <= |b|
  {
    assert b == a + (b - a);
  }

  /** No more calls are under way than there are threads. */
  lemma BusyBound(s: State)
    ensures |Slots(s)| <= |Busy(s)| <= |s.threads|
    ensures (exists t :: t in s.threads && s.threads[t].Idle?) ==> |Busy(s)| < |s.threads|
  {
    Subset(Slots(s), Busy(s));
    Subset(Busy(s), s.threads.Keys);
    if t :| t in s.threads && s.threads[t].Idle? {
      Subset(Busy(s), s.threads.Keys - {t});
    }
  }

  /** The counter is exactly the slots held and the calls about to undo. */
  lemma CounterSplits(s: State)
    requires Inv(s)
    ensures s.active == |Slots(s)| + |Undoings(s)|
  {
    assert Busy(s) == Slots(s) + Undoings(s) && Slots(s) !! Undoings(s);
  }

  /** One call more is under way, and it has a slot or it has not. */
  lemma AddSets(s: State, t: nat)
    requires Enabled(s, FetchAdd(t))
    ensures var s' := Apply(s, FetchAdd(t));
            && |Busy(s')| == |Busy(s)| + 1 && |Busy(s)| < |s.threads| && |s'.threads| == |s.threads|
            && |Slots(s)| <= |Busy(s)|
            && |Slots(s')| == |Slots(s)| + if s'.threads[t].Peaking? then 1 else 0
  {
    BusyBound(s);
    var s' := Apply(s, FetchAdd(t));
    assert s'.threads.Keys == s.threads.Keys;
    assert Busy(s') == Busy(s) + {t};
    assert Slots(s') == if s'.threads[t].Peaking? then Slots(s) + {t} else Slots(s);
  }

  lemma KeepAdd(s: State, t: nat)
    requires Inv(s) && Enabled(s, FetchAdd(t))
    ensures Inv(Apply(s, FetchAdd(t)))
  {
    hide Recorded, Busy, Slots;
    AddSets(s, t);
    OverIff(s.limits, s.active);
    KeepRecorded(s, Apply(s, FetchAdd(t)), t);
  }

  lemma KeepRecorded(s: State, s': State, t: nat)
    requires Inv(s) && Enabled(s, FetchAdd(t)) && s' == Apply(s, FetchAdd(t))
    requires |Slots(s')| <= Max(|Slots(s)|, if s'.threads[t].Peaking? then s.active + 1 else 0)
    ensures Recorded(s', s'.most)
  {
    if s.most > s.peak {
      var u :| u in s.threads && s.threads[u].Peaking? && s.most <= s.threads[u].cur + 1;
      assert s'.threads[u] == s.threads[u];
    }
    if s'.most > s.most {
      assert s'.threads[t].Peaking? && s'.most <= s'.threads[t].cur + 1;
    }
  }

  /** Raising the peak moves no slot. */
  lemma KeepMax(s: State, t: nat)
    requires Inv(s) && Enabled(s, FetchMax(t))
    ensures Inv(Apply(s, FetchMax(t)))
  {
    var s' := Apply(s, FetchMax(t));
    assert s'.threads.Keys == s.threads.Keys;
    OverIff(s.limits, s.threads[t].cur);
    assert Busy(s') == Busy(s) && Slots(s') == Slots(s);
    StillRecorded(s, s', t);
  }

  /** Undoing and releasing take one call off the counter. */
  lemma KeepLeave(s: State, a: Step)
    requires Inv(s) && Enabled(s, a) && (a.FetchSub? || a.Release?)
    ensures Inv(Apply(s, a))
  {
    var s' := Apply(s, a);
    assert s'.threads.Keys == s.threads.Keys;
    assert a.t in Busy(s);
    assert Busy(s') == Busy(s) - {a.t};
    assert Slots(s') == Slots(s) - {a.t};
    Subset(Slots(s'), Slots(s));
    StillRecorded(s, s', a.t);
  }

  lemma StillRecorded(s: State, s': State, t: nat)
    requires Recorded(s, s.most) && s'.most == s.most && t in s.threads && t in s'.threads && s'.threads == s.threads[t := s'.threads[t]]
    requires s'.peak >= s.peak && (s.threads[t].Peaking? ==> s'.peak >= s.threads[t].cur + 1)
    ensures Recorded(s', s'.most)
  {
    if s.most > s.peak {
      var u :| u in s.threads && s.threads[u].Peaking? && s.most <= s.threads[u].cur + 1;
      assert u != t ==> s'.threads[u] == s.threads[u];
    }
  }

  lemma Keep(s: State, a: Step)
    requires Inv(s) && Enabled(s, a)
    ensures Inv(Apply(s, a))
  {
    if a.FetchAdd? {
      KeepAdd(s, a.t);
    } else if a.FetchMax? {
      KeepMax(s, a.t);
    } else {
      KeepLeave(s, a);
    }
  }

  /** The two steps of one call on its own. */
  lemma RegisterSteps(s: State, t: nat)
    requires Inv(s) && Enabled(s, FetchAdd(t))
    ensures var over := Over(s.limits, s.active); var m := Apply(s, FetchAdd(t)); var a := if over then FetchSub(t) else FetchMax(t);
            && Enabled(m, a)
            && var e := Apply(m, a);
               && Inv(e) && e.limits == s.limits
               && e.active == (if over then s.active else (s.active + 1) % WRAP)
               && e.peak == (if over then s.peak else Max(s.peak, s.active + 1) % WRAP)
  {
    hide Inv, Slots;
    var over, m := Over(s.limits, s.active), Apply(s, FetchAdd(t));
    Keep(s, FetchAdd(t));
    Keep(m, if over then FetchSub(t) else FetchMax(t));
  }

  function Start(l: Limits, threads: set<nat>): State {
    State(l, 0, 0, map t | t in threads :: Idle, 0)
  }

  predicate Possible(s: State, run: seq<Step>)
    decreases |run|
  {
    run == [] || (Enabled(s, run[0]) && Possible(Apply(s, run[0]), run[1..]))
  }

  function After(s: State, run: seq<Step>): State
    requires Possible(s, run)
    decreases |run|
  {
    if run == [] then s else After(Apply(s, run[0]), run[1..])
  }

  lemma {:induction false} KeepRun(s: State, run: seq<Step>)
    requires Inv(s) && Possible(s, run)
    ensures Inv(After(s, run)) && After(s, run).limits == s.limits
    decreases |run|
  {
    hide Inv;
    if run != [] {
      Keep(s, run[0]);
      KeepRun(Apply(s, run[0]), run[1..]);
    }
  }

  lemma StartInv(l: Limits, threads: set<nat>)
    requires |threads| < WRAP
    ensures Inv(Start(l, threads))
  {
    var s := Start(l, threads);
    assert s.threads.Keys == threads;
    assert Busy(s) == {} && Slots(s) == {};
  }

  predicate Quiet(s: State) {
    forall t :: t in s.threads ==> s.threads[t].Idle? || s.threads[t].Held?
  }

  /**
   * Any number of threads, any interleaving: the slots held never exceed the smaller limit, the counter is
   * the slots held and the calls about to undo, and whenever no call is under way the peak is at least every
   * count of slots ever held and never above the limit.
   */
  lemma Admits(l: Limits, threads: set<nat>, run: seq<Step>)
    requires |threads| < WRAP && Possible(Start(l, threads), run)
    ensures var s := After(Start(l, threads), run);
            && s.active == |Slots(s)| + |Undoings(s)|
            && |Slots(s)| <= s.most
            && (l.maxStreams > 0 ==> |Slots(s)| <= l.maxStreams && s.peak <= l.maxStreams)
            && (l.serverMax > 0 ==> |Slots(s)| <= l.serverMax && s.peak <= l.serverMax)
            && (Quiet(s) ==> s.most <= s.peak)
  {
    StartInv(l, threads);
    KeepRun(Start(l, threads), run);
    CounterSplits(After(Start(l, threads), run));
  }

  /** A call is turned away exactly when the slots held and the calls about to undo reach the limit between them. */
  lemma TurnedAwayIff(s: State, t: nat)
    requires Inv(s) && Enabled(s, FetchAdd(t))
    ensures var n := |Slots(s)| + |Undoings(s)|;
            Apply(s, FetchAdd(t)).threads[t].Undoing? <==>
              (s.limits.maxStreams > 0 && n >= s.limits.maxStreams) || (s.limits.serverMax > 0 && n >= s.limits.serverMax)
    ensures Quiet(s) ==> (Apply(s, FetchAdd(t)).threads[t].Undoing? <==>
              (s.limits.maxStreams > 0 && |Slots(s)| >= s.limits.maxStreams) ||
              (s.limits.serverMax > 0 && |Slots(s)| >= s.limits.serverMax))
  {
    CounterSplits(s);
    if Quiet(s) {
      assert Undoings(s) == {};
    }
  }

  /** The counter itself can pass the limit, and a call can be turned away while a slot is free. */
  lemma OvershootHappens()
    ensures exists run :: Possible(Start(Limits(1, 0), {0, 1, 2}), run) &&
                          var s := After(Start(Limits(1, 0), {0, 1, 2}), run);
                          s.active == 2 && Slots(s) == {} && Undoings(s) == {1, 2}
  {
    hide Slots, Undoings, Max, Possible, After, Start;
    var run := [FetchAdd(0), FetchMax(0), FetchAdd(1), Release(0), FetchAdd(2)];
    var s0, s1, s2, s3, s4, s5 := Overshoot();
    TwoUndo(s5);
    Done(s5);
    assert run[4..][1..] == [];
    Unroll(s4, run[4..]);
    Unroll(s3, run[3..]);
    Unroll(s2, run[2..]);
    Unroll(s1, run[1..]);
    Unroll(s0, run);
  }

  lemma Overshoot() returns (s0: State, s1: State, s2: State, s3: State, s4: State, s5: State)
    ensures s0 == Start(Limits(1, 0), {0, 1, 2})
    ensures Enabled(s0, FetchAdd(0)) && s1 == Apply(s0, FetchAdd(0))
    ensures Enabled(s1, FetchMax(0)) && s2 == Apply(s1, FetchMax(0))
    ensures Enabled(s2, FetchAdd(1)) && s3 == Apply(s2, FetchAdd(1))
    ensures Enabled(s3, Release(0)) && s4 == Apply(s3, Release(0))
    ensures Enabled(s4, FetchAdd(2)) && s5 == Apply(s4, FetchAdd(2))
    ensures s5.active == 2 && s5.threads == map[0 := Idle, 1 := Undoing, 2 := Undoing]
  {
    hide Slots, Max;
    s0 := Start(Limits(1, 0), {0, 1, 2});
    s1 := Apply(s0, FetchAdd(0));
    assert s1.threads == map[0 := Peaking(0), 1 := Idle, 2 := Idle] && s1.active == 1;
    s2 := Apply(s1, FetchMax(0));
    s3 := Apply(s2, FetchAdd(1));
    assert s3.threads == map[0 := Held, 1 := Undoing, 2 := Idle] && s3.active == 2;
    s4 := Apply(s3, Release(0));
    s5 := Apply(s4, FetchAdd(2));
  }

  lemma TwoUndo(s: State)
    requires s.threads == map[0 := Idle, 1 := Undoing, 2 := Undoing]
    ensures Slots(s) == {} && Undoings(s) == {1, 2}
  {
  }

  lemma Done(s: State)
    ensures Possible(s, []) && After(s, []) == s
  {
  }

  lemma Unroll(s: State, run: seq<Step>)
    requires run != [] && Enabled(s, run[0]) && Possible(Apply(s, run[0]), run[1..])
    ensures Possible(s, run) && After(s, run) == After(Apply(s, run[0]), run[1..])
  {
    hide Enabled, Apply;
  }
}

/** Usage watermarks: a load and a swap, by any number of threads. */
module Metering {
  import opened Bytes

  const WRAP: nat := 0x1_0000_0000_0000_0000

  datatype State = State(
    live: u64,               // bytes, or requests, counted so far
    mark: u64,               // what has been reported
    loaded: map<nat, u64>,   // threads between their load and their swap
    deltas: seq<u64>         // what the calls have returned (history)
  )

  datatype Step = Count(n: nat) | Load(t: nat) | Swap(t: nat)

  const INIT: State := State(0, 0, map[], [])

  predicate Enabled(s: State, a: Step) {
    match a
    case Count(_) => true
    case Load(t) => t !in s.loaded
    case Swap(t) => t in s.loaded
  }

  function Apply(s: State, a: Step): State
    requires Enabled(s, a)
  {
    match a
    case Count(n) => s.(live := (s.live + n) % WRAP)
    case Load(t) => s.(loaded := s.loaded[t := s.live])
    case Swap(t) => s.(mark := s.loaded[t], loaded := s.loaded - {t}, deltas := s.deltas + [(s.loaded[t] - s.mark) % WRAP])
  }

  function Sum(deltas: seq<u64>): nat {
    if deltas == [] then 0 else Sum(deltas[..|deltas| - 1]) + deltas[|deltas| - 1]
  }

  predicate Possible(s: State, run: seq<Step>)
    decreases |run|
  {
    run == [] || (Enabled(s, run[0]) && Possible(Apply(s, run[0]), run[1..]))
  }

  function After(s: State, run: seq<Step>): State
    requires Possible(s, run)
    decreases |run|
  {
    if run == [] then s else After(Apply(s, run[0]), run[1..])
  }

  lemma SumSnoc(deltas: seq<u64>, d: u64)
    ensures Sum(deltas + [d]) == Sum(deltas) + d
  {
    assert (deltas + [d])[..|deltas|] == deltas;
  }

  lemma WrapsAdd(a: int, b: int, c: int)
    requires a % WRAP == b
    ensures (a + (c - b) % WRAP) % WRAP == c % WRAP
  {
    var k := a / WRAP;
    var j := (c - b) / WRAP;
    assert a + (c - b) % WRAP == c + (k - j) * WRAP;
  }

  /** In total nothing is lost or counted twice, whoever swaps when: the deltas add up to the watermark. */
  lemma {:induction false} DeltasSum(s: State, run: seq<Step>)
    requires Sum(s.deltas) % WRAP == s.mark && Possible(s, run)
    ensures Sum(After(s, run).deltas) % WRAP == After(s, run).mark
    decreases |run|
  {
    hide Sum, Apply;
    if run != [] {
      StepSums(s, run[0]);
      DeltasSum(Apply(s, run[0]), run[1..]);
    }
  }

  lemma StepSums(s: State, a: Step)
    requires Sum(s.deltas) % WRAP == s.mark && Enabled(s, a)
    ensures Sum(Apply(s, a).deltas) % WRAP == Apply(s, a).mark
  {
    hide Sum;
    if a.Swap? {
      SwapSums(s.deltas, s.mark, s.loaded[a.t]);
    }
  }

  lemma SwapSums(deltas: seq<u64>, mark: u64, loaded: u64)
    requires Sum(deltas) % WRAP == mark
    ensures Sum(deltas + [(loaded - mark) % WRAP]) % WRAP == loaded
  {
    hide Sum;
    SumSnoc(deltas, (loaded - mark) % WRAP);
    WrapsAdd(Sum(deltas), mark, loaded);
  }

  /** One last call with nothing in between brings the total to the live counter. */
  lemma LastCallCatchesUp(run: seq<Step>, t: nat)
    requires Possible(INIT, run) && t !in After(INIT, run).loaded
    ensures var s := After(INIT, run);
            Sum(Apply(Apply(s, Load(t)), Swap(t)).deltas) % WRAP == s.live
  {
    DeltasSum(INIT, run);
    var s := After(INIT, run);
    hide Possible, After, Sum;
    SwapSums(s.deltas, s.mark, s.live);
  }

  // ---- one call's delta ----

  /** How much a run counts in all. */
  function Counted(run: seq<Step>): nat {
    if run == [] then 0 else (if run[0].Count? then run[0].n else 0) + Counted(run[1..])
  }

  /** The loads that the swaps of a run store as the watermark, in order. */
  function Stored(s: State, run: seq<Step>): seq<u64>
    requires Possible(s, run)
    decreases |run|
  {
    if run == [] then [] else
    (if run[0].Swap? then [s.loaded[run[0].t]] else []) + Stored(Apply(s, run[0]), run[1..])
  }

  /** While the live counter has not wrapped nobody has loaded or reported more than it says. */
  predicate Level(s: State) {
    s.mark <= s.live && forall t :: t in s.loaded ==> s.loaded[t] <= s.live
  }

  lemma {:induction false} KeepLevel(s: State, run: seq<Step>)
    requires Level(s) && Possible(s, run) && s.live + Counted(run) < WRAP
    ensures Level(After(s, run)) && After(s, run).live == s.live + Counted(run)
    decreases |run|
  {
    if run != [] {
      KeepLevel(Apply(s, run[0]), run[1..]);
    }
  }

  lemma {:induction false} LoadStays(s: State, run: seq<Step>, t: nat)
    requires Possible(s, run) && t in s.loaded && Swap(t) !in run
    ensures t in After(s, run).loaded && After(s, run).loaded[t] == s.loaded[t]
    decreases |run|
  {
    if run != [] {
      assert run[0] in run;
      LoadStays(Apply(s, run[0]), run[1..], t);
    }
  }

  /** The watermark is what the last swap stored. */
  lemma {:induction false} MarkIsStored(s: State, run: seq<Step>)
    requires Possible(s, run)
    ensures var stored := Stored(s, run);
            After(s, run).mark == if stored == [] then s.mark else stored[|stored| - 1]
    decreases |run|
  {
    hide Enabled;
    if run != [] {
      MarkIsStored(Apply(s, run[0]), run[1..]);
    }
  }

  /** A call among others: `before` comes before its load, `between` comes between its load and its swap. */
  predicate Calls(before: seq<Step>, t: nat, between: seq<Step>) {
    && Possible(INIT, before) && Enabled(After(INIT, before), Load(t))
    && Possible(Apply(After(INIT, before), Load(t)), between) && Swap(t) !in between
  }

  /** The call has loaded. */
  function HasLoaded(before: seq<Step>, t: nat, between: seq<Step>): State
    requires Calls(before, t, between)
  {
    Apply(After(INIT, before), Load(t))
  }

  /** The call is about to swap. */
  function WillSwap(before: seq<Step>, t: nat, between: seq<Step>): State
    requires Calls(before, t, between)
  {
    After(HasLoaded(before, t, between), between)
  }

  lemma AboutToSwap(before: seq<Step>, t: nat, between: seq<Step>)
    requires Calls(before, t, between) && Counted(before) + Counted(between) < WRAP
    ensures var s, e := HasLoaded(before, t, between), WillSwap(before, t, between);
            s.mark <= s.live == Counted(before) && t in e.loaded && e.loaded[t] == Counted(before)
  {
    hide Possible, After;
    KeepLevel(INIT, before);
    LoadStays(HasLoaded(before, t, between), between, t);
  }

  /** What the call then reports is what it has loaded less what was reported before: no wrap-around. */
  predicate Honest(s: State, t: nat)
    requires Enabled(s, Swap(t))
  {
    var deltas := Apply(s, Swap(t)).deltas;
    deltas[|deltas| - 1] as int == s.loaded[t] - s.mark
  }

  /**
   * While the live counter has not wrapped, a call's delta is honest exactly when the last swap that falls between
   * its own load and its own swap, if there is one, did not store more than had been counted when it loaded.
   */
  lemma DeltaHonestIff(before: seq<Step>, t: nat, between: seq<Step>)
    requires Calls(before, t, between) && Counted(before) + Counted(between) < WRAP
    ensures var stored := Stored(HasLoaded(before, t, between), between);
            && Enabled(WillSwap(before, t, between), Swap(t))
            && (Honest(WillSwap(before, t, between), t) <==> stored == [] || stored[|stored| - 1] <= Counted(before))
  {
    hide Possible, After, Counted;
    AboutToSwap(before, t, between);
    MarkIsStored(HasLoaded(before, t, between), between);
  }

  lemma {:induction false} NothingStored(s: State, run: seq<Step>)
    requires Possible(s, run) && forall a :: a in run ==> !a.Swap?
    ensures Stored(s, run) == []
    decreases |run|
  {
    hide Enabled, Apply;
    if run != [] {
      assert run[0] in run;
      NothingStored(Apply(s, run[0]), run[1..]);
    }
  }

  /** A call that no other swap falls into is always honest, whatever else is loaded and counted meanwhile. */
  lemma UndisturbedIsHonest(before: seq<Step>, t: nat, between: seq<Step>)
    requires Calls(before, t, between) && Counted(before) + Counted(between) < WRAP
    requires forall a :: a in between ==> !a.Swap?
    ensures Enabled(WillSwap(before, t, between), Swap(t)) && Honest(WillSwap(before, t, between), t)
  {
    hide Possible, After, Counted, Honest;
    NothingStored(HasLoaded(before, t, between), between);
    DeltaHonestIff(before, t, between);
  }

  // ---- all deltas of a run ----

  /** How often a swap stored less than the watermark it replaced. */
  function Stale(mark: u64, stored: seq<u64>): nat
    decreases |stored|
  {
    if stored == [] then 0 else (if stored[0] < mark then 1 else 0) + Stale(stored[0], stored[1..])
  }

  predicate Rising(mark: u64, stored: seq<u64>)
    decreases |stored|
  {
    stored == [] || (mark <= stored[0] && Rising(stored[0], stored[1..]))
  }

  lemma {:induction false} NoneStale(mark: u64, stored: seq<u64>)
    ensures Stale(mark, stored) == 0 <==> Rising(mark, stored)
    decreases |stored|
  {
    if stored != [] {
      NoneStale(stored[0], stored[1..]);
    }
  }

  /** Every swap that stores less than the one before it adds 2^64 to what is billed in all. */
  lemma {:induction false} Billed(s: State, run: seq<Step>)
    requires Possible(s, run)
    ensures Sum(After(s, run).deltas) - After(s, run).mark == Sum(s.deltas) - s.mark + WRAP * Stale(s.mark, Stored(s, run))
    decreases |run|
  {
    hide Sum;
    if run != [] {
      var a := run[0];
      Billed(Apply(s, a), run[1..]);
      var rest := Stored(Apply(s, a), run[1..]);
      if a.Swap? {
        SumSnoc(s.deltas, (s.loaded[a.t] - s.mark) % WRAP);
        assert ([s.loaded[a.t]] + rest)[1..] == rest;
      } else {
        assert Stored(s, run) == rest;
      }
    }
  }

  /** The callers of a run split what was reported between them exactly when no swap stores less than one before it. */
  lemma SplitIff(run: seq<Step>)
    requires Possible(INIT, run)
    ensures Sum(After(INIT, run).deltas) == After(INIT, run).mark <==> Rising(0, Stored(INIT, run))
  {
    Billed(INIT, run);
    NoneStale(0, Stored(INIT, run));
  }

  /** Two callers suffice for one that is not: a stale load followed by a swap. */
  lemma StaleLoadWraps()
    ensures exists run :: Possible(INIT, run) && After(INIT, run).live == 5 && After(INIT, run).deltas == [5, WRAP - 5]
  {
    var run := [Load(0), Count(5), Load(1), Swap(1), Swap(0)];
    var s1 := Apply(INIT, run[0]);
    var s2 := Apply(s1, run[1]);
    var s3 := Apply(s2, run[2]);
    var s4 := Apply(s3, run[3]);
    var s5 := Apply(s4, run[4]);
    assert s5.live == 5 && s5.deltas == [5, WRAP - 5];
    Unroll(s4, run[4..]);
    Unroll(s3, run[3..]);
    Unroll(s2, run[2..]);
    Unroll(s1, run[1..]);
    Unroll(INIT, run);
  }

  lemma Unroll(s: State, run: seq<Step>)
    requires run != [] && Enabled(s, run[0]) && Possible(Apply(s, run[0]), run[1..])
    ensures Possible(s, run) && After(s, run) == After(Apply(s, run[0]), run[1..])
  {
    hide Enabled, Apply;
  }
}

/** The session object: its atomic fields, changed by one caller at a time. */
module Session {
  import opened Bytes
  import Admission
  import Metering

  const DEBUG_RING_CAP: nat := 100

  class TunnelSession<DebugEntry> {
    const limits: Admission.Limits
    var activeStreams: u32
    var streamsPeak: u32
    var issued: u32
    var bytesTx: u64
    var bytesRx: u64
    var rolledTx: u64
    var rolledRx: u64
    var debugLog: seq<DebugEntry>
    ghost var slots: Admission.State
    ghost var tx: Metering.State
    ghost var rx: Metering.State

    /** The fields are those of the three step machines. */
    ghost predicate Valid()
      reads this
    {
      && Admission.Inv(slots) && slots.limits == limits && slots.active == activeStreams && slots.peak == streamsPeak
      && tx.live == bytesTx && tx.mark == rolledTx && rx.live == bytesRx && rx.mark == rolledRx
      && |debugLog| <= DEBUG_RING_CAP
    }

    constructor (limits: Admission.Limits, ghost threads: set<nat>)
      requires |threads| < Admission.WRAP
      ensures Valid() && this.limits == limits && slots == Admission.Start(limits, threads)
      ensures tx == Metering.INIT && rx == Metering.INIT && issued == 0 && debugLog == []
    {
      this.limits := limits;
      activeStreams, streamsPeak, issued := 0, 0, 0;
      bytesTx, bytesRx, rolledTx, rolledRx := 0, 0, 0, 0;
      debugLog := [];
      slots := Admission.Start(limits, threads);
      tx, rx := Metering.INIT, Metering.INIT;
      Admission.StartInv(limits, threads);
    }

    /** Add, check, and undo or raise the peak: two steps of the admission machine. */
    method RegisterStream(ghost t: nat) returns (ok: bool)
      requires Valid() && t in slots.threads && slots.threads[t].Idle?
      modifies this`activeStreams, this`streamsPeak, this`slots
      ensures Valid()
      ensures ok == !Admission.Over(limits, old(slots).active)
      ensures ok <==> (limits.maxStreams > 0 ==> old(activeStreams) < limits.maxStreams) &&
                      (limits.serverMax > 0 ==> old(activeStreams) < limits.serverMax)
      ensures activeStreams == if ok then (old(activeStreams) + 1) % 0x1_0000_0000 else old(activeStreams)
      ensures streamsPeak == if ok && old(activeStreams) >= old(streamsPeak) then (old(activeStreams) + 1) % 0x1_0000_0000
                             else old(streamsPeak)
      ensures var added := Admission.Apply(old(slots), Admission.FetchAdd(t));
              slots == Admission.Apply(added, if ok then Admission.FetchMax(t) else Admission.FetchSub(t))
    {
      hide Admission.Inv, Admission.Apply;
      ghost var added := Admission.Apply(slots, Admission.FetchAdd(t));
      Admission.RegisterSteps(slots, t);
      var cur := activeStreams;
      activeStreams := (activeStreams + 1) % Admission.WRAP;
      if limits.maxStreams > 0 && cur >= limits.maxStreams {
        activeStreams := (activeStreams - 1) % Admission.WRAP;
        slots := Admission.Apply(added, Admission.FetchSub(t));
        return false;
      }
      if limits.serverMax > 0 && cur >= limits.serverMax {
        activeStreams := (activeStreams - 1) % Admission.WRAP;
        slots := Admission.Apply(added, Admission.FetchSub(t));
        return false;
      }
      slots := Admission.Apply(added, Admission.FetchMax(t));
      streamsPeak := Admission.Max(streamsPeak, cur + 1) % Admission.WRAP;
      return true;
    }

    method ReleaseStream(ghost t: nat)
      requires Valid() && t in slots.threads && slots.threads[t].Held?
      modifies this`activeStreams, this`slots
      ensures Valid() && slots == Admission.Apply(old(slots), Admission.Release(t))
    {
      hide Admission.Inv;
      Admission.Keep(slots, Admission.Release(t));
      activeStreams := (activeStreams - 1) % Admission.WRAP;
      slots := Admission.Apply(slots, Admission.Release(t));
    }

    method NextStreamId() returns (id: u32)
      modifies this`issued
      ensures id as int == (old(issued) + 1) % 0x1_0000_0000 && issued == id
    {
      issued := (issued + 1) % 0x1_0000_0000;
      return issued;
    }

    /** Load both counters, then swap both watermarks. */
    method TakeUsageDelta(ghost t: nat) returns (dtx: u64, drx: u64)
      requires Valid() && t !in tx.loaded && t !in rx.loaded
      modifies this`rolledTx, this`rolledRx, this`tx, this`rx
      ensures Valid()
      ensures tx == Metering.Apply(Metering.Apply(old(tx), Metering.Load(t)), Metering.Swap(t)) && tx.deltas == old(tx).deltas + [dtx]
      ensures rx == Metering.Apply(Metering.Apply(old(rx), Metering.Load(t)), Metering.Swap(t)) && rx.deltas == old(rx).deltas + [drx]
    {
      hide Admission.Inv;
      dtx := (bytesTx - rolledTx) % Metering.WRAP;
      drx := (bytesRx - rolledRx) % Metering.WRAP;
      rolledTx, rolledRx := bytesTx, bytesRx;
      tx := Metering.Apply(Metering.Apply(tx, Metering.Load(t)), Metering.Swap(t));
      rx := Metering.Apply(Metering.Apply(rx, Metering.Load(t)), Metering.Swap(t));
    }

    /** The ring keeps the newest entries in order. */
    method RecordDebug(entry: DebugEntry)
      requires Valid()
      modifies this`debugLog
      ensures Valid()
      ensures debugLog == (if |old(debugLog)| == 100 then old(debugLog)[1..] else old(debugLog)) + [entry]
    {
      hide Admission.Inv;
      if |debugLog| >= DEBUG_RING_CAP {
        debugLog := debugLog[1..];
      }
      debugLog := debugLog + [entry];
    }
  }
}
