/**
 * Who gives stream slots back: every visitor's connection and every UDP flow of a session, from asking for a slot to
 * its last task. What they do to the session's counters are steps of `Admission`.
 */
module Slots {
  import opened Bytes
  import A = Admission
  import OpenMetas

  /** Where a connection is. `Gone` remembers whether it gave its slot back. */
  datatype Place = Arriving | Registering | Refused | Opening | Serving | Winding | Gone(released: bool)

  datatype Conn = Conn(kind: OpenMetas.StreamKind, place: Place)

  datatype What =
    | Register     // `register_stream` adds
    | Settle       // and undoes, or raises the peak
    | EncodeFail   // the open metadata cannot be encoded
    | SendFail     // the client is gone before the Open frame is queued
    | Open
    | GiveUp       // an HTTP request is answered with an error instead of the response
    | HandOver     // the response, or the rest of a TCP connection, is left to the last task
    | Clean        // which takes the stream off the table and gives the slot back
    | Cancel       // the HTTP server drops the handler because its visitor has left
    | Sweep        // a UDP flow has been idle for too long

  datatype Act = Act(t: nat, what: What)

  datatype State = State(slots: A.State, conns: map<nat, Conn>)

  /** What the program lets a connection of this kind do at this place. */
  predicate Can(c: Conn, what: What) {
    match what
    case Register => c.place.Arriving?
    case Settle => c.place.Registering?
    case EncodeFail => c.place.Opening?
    case SendFail => c.place.Opening? && !c.kind.Udp?
    case Open => c.place.Opening?
    case GiveUp => c.place.Serving? && c.kind.Http?
    case HandOver => c.place.Serving? && !c.kind.Udp?
    case Clean => c.place.Winding?
    case Cancel => (c.place.Opening? || c.place.Serving?) && c.kind.Http?
    case Sweep => c.place.Serving? && c.kind.Udp?
  }

  /** The ways out that give the slot back. */
  predicate Releases(kind: OpenMetas.StreamKind, what: What) {
    what.SendFail? || what.GiveUp? || what.Clean? || (what.EncodeFail? && !kind.Http?)
  }

  function Goes(c: Conn, phase: A.Phase, what: What): Place {
    match what
    case Register => Registering
    case Settle => if phase.Undoing? then Refused else Opening
    case Open => Serving
    case HandOver => Winding
    case _ => Gone(Releases(c.kind, what))
  }

  /** What the act does to the session's counters. */
  function StepOf(s: State, a: Act): Option<A.Step>
    requires a.t in s.slots.threads && a.t in s.conns
  {
    if a.what.Register? then Some(A.FetchAdd(a.t))
    else if a.what.Settle? then Some(if s.slots.threads[a.t].Undoing? then A.FetchSub(a.t) else A.FetchMax(a.t))
    else if Releases(s.conns[a.t].kind, a.what) then Some(A.Release(a.t))
    else None
  }

  /** A connection's own control flow decides; whether its step on the counters is possible is a theorem. */
  predicate Enabled(s: State, a: Act) {
    a.t in s.slots.threads && a.t in s.conns && Can(s.conns[a.t], a.what)
  }

  function Apply(s: State, a: Act): State
    requires Enabled(s, a)
  {
    var c := s.conns[a.t];
    var step := StepOf(s, a);
    State(if step.Some? && A.Enabled(s.slots, step.value) then A.Apply(s.slots, step.value) else s.slots,
          s.conns[a.t := c.(place := Goes(c, s.slots.threads[a.t], a.what))])
  }

  /** The counters know each connection as its own tasks do. */
  predicate Agrees(c: Conn, phase: A.Phase) {
    match c.place
    case Registering => phase.Undoing? || phase.Peaking?
    case Opening => phase.Held?
    case Serving => phase.Held?
    case Winding => phase.Held? && !c.kind.Udp?
    case Gone(released) => if released then phase.Idle? else phase.Held? && !c.kind.Tcp?
    case _ => phase.Idle?
  }

  predicate Inv(s: State) {
    s.conns.Keys == s.slots.threads.Keys && forall t :: t in s.conns ==> Agrees(s.conns[t], s.slots.threads[t])
  }

  /** Nobody ever releases a slot it has not got, or settles what it has not asked for. */
  lemma StepPossible(s: State, a: Act)
    requires Inv(s) && Enabled(s, a) && StepOf(s, a).Some?
    ensures A.Enabled(s.slots, StepOf(s, a).value)
  {
    assert Agrees(s.conns[a.t], s.slots.threads[a.t]);
  }

  lemma Keep(s: State, a: Act)
    requires Inv(s) && Enabled(s, a)
    ensures Inv(Apply(s, a))
  {
    hide A.Slots;
    if StepOf(s, a).Some? {
      StepPossible(s, a);
    }
    assert Agrees(s.conns[a.t], s.slots.threads[a.t]);
    var s' := Apply(s, a);
    assert s'.slots.threads.Keys == s.slots.threads.Keys && s'.conns.Keys == s.conns.Keys;
    forall t | t in s'.conns
      ensures Agrees(s'.conns[t], s'.slots.threads[t])
    {
      if t != a.t {
        assert s'.conns[t] == s.conns[t] && s'.slots.threads[t] == s.slots.threads[t];
        assert t in s.conns.Keys;
      }
    }
  }

  // ---- runs ----

  predicate Possible(s: State, run: seq<Act>)
    decreases |run|
  {
    run == [] || (Enabled(s, run[0]) && Possible(Apply(s, run[0]), run[1..]))
  }

  function After(s: State, run: seq<Act>): State
    requires Possible(s, run)
    decreases |run|
  {
    if run == [] then s else After(Apply(s, run[0]), run[1..])
  }

  /** The run as the counters see it. */
  function Counters(s: State, run: seq<Act>): seq<A.Step>
    requires Possible(s, run)
    decreases |run|
  {
    if run == [] then [] else
    (if StepOf(s, run[0]).Some? then [StepOf(s, run[0]).value] else []) + Counters(Apply(s, run[0]), run[1..])
  }

  /** Every run of the connections is a run of the admission machine, so its bounds hold for them. */
  lemma {:induction false} IsAdmission(s: State, run: seq<Act>)
    requires Inv(s) && Possible(s, run)
    ensures A.Possible(s.slots, Counters(s, run)) && After(s, run).slots == A.After(s.slots, Counters(s, run))
    ensures Inv(After(s, run))
    decreases |run|
  {
    hide StepOf, A.Enabled, A.Apply, Inv, Can;
    if run != [] {
      Keep(s, run[0]);
      IsAdmission(Apply(s, run[0]), run[1..]);
      var rest := Counters(Apply(s, run[0]), run[1..]);
      if StepOf(s, run[0]).Some? {
        StepPossible(s, run[0]);
        assert ([StepOf(s, run[0]).value] + rest)[1..] == rest;
      } else {
        assert Counters(s, run) == rest;
      }
    }
  }

  function Start(l: A.Limits, kinds: map<nat, OpenMetas.StreamKind>): State {
    State(A.Start(l, kinds.Keys), map t | t in kinds :: Conn(kinds[t], Arriving))
  }

  lemma StartInv(l: A.Limits, kinds: map<nat, OpenMetas.StreamKind>)
    ensures Inv(Start(l, kinds))
  {
  }

  // ---- at most once per grant ----

  /** How often connection `t` gets a slot, and how often it gives one back. */
  function Grants(steps: seq<A.Step>, t: nat): nat {
    if steps == [] then 0 else (if steps[0] == A.FetchMax(t) then 1 else 0) + Grants(steps[1..], t)
  }

  function Returns(steps: seq<A.Step>, t: nat): nat {
    if steps == [] then 0 else (if steps[0] == A.Release(t) then 1 else 0) + Returns(steps[1..], t)
  }

  function Holds(s: State, t: nat): nat {
    if t in s.slots.threads && s.slots.threads[t].Held? then 1 else 0
  }

  /** A connection that may still be granted a slot. */
  function Hopes(s: State, t: nat): nat {
    if t in s.conns && (s.conns[t].place.Arriving? || s.conns[t].place.Registering?) then 1 else 0
  }

  lemma {:induction false} Balance(s: State, run: seq<Act>, t: nat)
    requires Inv(s) && Possible(s, run)
    ensures var e := After(s, run); var steps := Counters(s, run);
            && Holds(s, t) + Grants(steps, t) == Holds(e, t) + Returns(steps, t)
            && Grants(steps, t) + Hopes(e, t) <= Hopes(s, t)
    decreases |run|
  {
    hide A.Slots;
    if run != [] {
      var m := Apply(s, run[0]);
      Keep(s, run[0]);
      Balance(m, run[1..], t);
      StepBalance(s, run[0], t);
      var rest := Counters(m, run[1..]);
      if StepOf(s, run[0]).Some? {
        assert ([StepOf(s, run[0]).value] + rest)[1..] == rest;
      } else {
        assert Counters(s, run) == rest;
      }
    }
  }

  lemma StepBalance(s: State, a: Act, t: nat)
    requires Inv(s) && Enabled(s, a)
    ensures var e := Apply(s, a); var step := StepOf(s, a);
            && Holds(s, t) + (if step == Some(A.FetchMax(t)) then 1 else 0) ==
               Holds(e, t) + (if step == Some(A.Release(t)) then 1 else 0)
            && (if step == Some(A.FetchMax(t)) then 1 else 0) + Hopes(e, t) <= Hopes(s, t)
  {
    hide A.Slots;
    assert Agrees(s.conns[a.t], s.slots.threads[a.t]);
    if StepOf(s, a).Some? {
      StepPossible(s, a);
    }
  }

  /** In every run a connection is granted a slot at most once and gives it back at most once, and only if it was granted. */
  lemma AtMostOnce(l: A.Limits, kinds: map<nat, OpenMetas.StreamKind>, run: seq<Act>, t: nat)
    requires Possible(Start(l, kinds), run)
    ensures var steps := Counters(Start(l, kinds), run); Returns(steps, t) <= Grants(steps, t) <= 1
  {
    hide Possible, After, Counters;
    StartInv(l, kinds);
    Balance(Start(l, kinds), run, t);
  }

  // ---- when a session is at rest ----

  /** Every connection has been turned away or has ended. */
  predicate AtRest(s: State) {
    forall t :: t in s.conns ==> s.conns[t].place.Refused? || s.conns[t].place.Gone?
  }

  /** At some point of the run connection `t` left without giving its slot back. */
  predicate Forgot(kinds: map<nat, OpenMetas.StreamKind>, run: seq<Act>, t: nat) {
    t in kinds && exists a :: a in run && a.t == t && (a.what.Cancel? || a.what.Sweep? || (a.what.EncodeFail? && kinds[t].Http?))
  }

  predicate HasKinds(s: State, kinds: map<nat, OpenMetas.StreamKind>) {
    s.conns.Keys == kinds.Keys && forall t :: t in kinds ==> s.conns[t].kind == kinds[t]
  }

  lemma {:induction false} ForgottenIff(s: State, kinds: map<nat, OpenMetas.StreamKind>, run: seq<Act>, t: nat)
    requires HasKinds(s, kinds) && Possible(s, run) && t in kinds
    ensures HasKinds(After(s, run), kinds)
    ensures After(s, run).conns[t].place == Gone(false) <==> s.conns[t].place == Gone(false) || Forgot(kinds, run, t)
    decreases |run|
  {
    hide A.Enabled, A.Apply, StepOf;
    if run != [] {
      var m := Apply(s, run[0]);
      assert m.conns.Keys == s.conns.Keys;
      ForgottenIff(m, kinds, run[1..], t);
      assert run == [run[0]] + run[1..];
      var w := run[0].what;
      var forgets := w.Cancel? || w.Sweep? || (w.EncodeFail? && kinds[t].Http?);
      assert run[0].t == t ==> (m.conns[t].place == Gone(false) <==> forgets);
      assert Forgot(kinds, run, t) <==> (run[0].t == t && forgets) || Forgot(kinds, run[1..], t);
    }
  }

  /**
   * When everybody has left, the counter is not zero in general: it is the number of connections that left by one of the
   * forgetful ways, an HTTP request whose head is too long or whose handler was dropped and a UDP flow that was swept.
   */
  lemma CounterAtRest(l: A.Limits, kinds: map<nat, OpenMetas.StreamKind>, run: seq<Act>)
    requires |kinds| < A.WRAP && Possible(Start(l, kinds), run) && AtRest(After(Start(l, kinds), run))
    ensures var e := After(Start(l, kinds), run);
            && e.slots.active == |set t | t in kinds && Forgot(kinds, run, t)|
            && (e.slots.active == 0 <==> forall t :: t in kinds ==> !Forgot(kinds, run, t))
  {
    hide Possible, After, Counters, A.Inv, Forgot;
    var e := After(Start(l, kinds), run);
    AsCounters(l, kinds, run);
    var left := set t | t in kinds && Forgot(kinds, run, t);
    forall t | t in kinds
      ensures t in e.slots.threads && (!e.slots.threads[t].Idle? <==> t in left)
    {
      ForgottenIff(Start(l, kinds), kinds, run, t);
      assert Agrees(e.conns[t], e.slots.threads[t]);
    }
    assert e.slots.threads.Keys == kinds.Keys;
    assert A.Busy(e.slots) == left;
    if e.slots.active == 0 {
      forall t | t in kinds
        ensures !Forgot(kinds, run, t)
      {
        assert t !in left;
      }
    } else {
      var t :| t in left;
    }
  }

  /** Those slots are lost for good: once they make up the limit nobody is let in again, whatever else happened. */
  lemma ForgottenBlock(l: A.Limits, kinds: map<nat, OpenMetas.StreamKind>, run: seq<Act>, t: nat)
    requires |kinds| < A.WRAP && Possible(Start(l, kinds), run) && Enabled(After(Start(l, kinds), run), Act(t, Register))
    requires var lost := |set u | u in kinds && Forgot(kinds, run, u)|;
             (l.maxStreams > 0 && lost >= l.maxStreams) || (l.serverMax > 0 && lost >= l.serverMax)
    ensures var s := Apply(After(Start(l, kinds), run), Act(t, Register));
            t in s.slots.threads && s.slots.threads[t].Undoing?
  {
    hide Possible, After, Counters, A.Inv, Forgot;
    var e := After(Start(l, kinds), run);
    AsCounters(l, kinds, run);
    var left := set u | u in kinds && Forgot(kinds, run, u);
    forall u | u in left
      ensures u in A.Busy(e.slots)
    {
      ForgottenIff(Start(l, kinds), kinds, run, u);
      assert Agrees(e.conns[u], e.slots.threads[u]);
    }
    A.Subset(left, A.Busy(e.slots));
    A.OverIff(l, e.slots.active);
    assert Agrees(e.conns[t], e.slots.threads[t]);
  }

  lemma AsCounters(l: A.Limits, kinds: map<nat, OpenMetas.StreamKind>, run: seq<Act>)
    requires |kinds| < A.WRAP && Possible(Start(l, kinds), run)
    ensures var e := After(Start(l, kinds), run);
            Inv(e) && e.conns.Keys == kinds.Keys && e.slots.active == |A.Busy(e.slots)| && e.slots.limits == l
  {
    hide Possible, After, Counters, A.Possible, A.After;
    StartInv(l, kinds);
    IsAdmission(Start(l, kinds), run);
    SameConns(Start(l, kinds), run);
    assert |kinds.Keys| == |kinds|;
    A.StartInv(l, kinds.Keys);
    A.KeepRun(A.Start(l, kinds.Keys), Counters(Start(l, kinds), run));
  }

  lemma {:induction false} SameConns(s: State, run: seq<Act>)
    requires Possible(s, run)
    ensures After(s, run).conns.Keys == s.conns.Keys
    decreases |run|
  {
    hide Can, StepOf, A.Enabled, A.Apply;
    if run != [] {
      SameConns(Apply(s, run[0]), run[1..]);
    }
  }

  /** A TCP connection always gives its slot back. */
  lemma TcpGivesBack(l: A.Limits, kinds: map<nat, OpenMetas.StreamKind>, run: seq<Act>, t: nat)
    requires Possible(Start(l, kinds), run) && t in kinds && kinds[t].Tcp?
    ensures var e := After(Start(l, kinds), run);
            t in e.conns && t in e.slots.threads && (e.conns[t].place.Gone? ==> e.slots.threads[t].Idle?)
  {
    hide Possible, After, Counters;
    StartInv(l, kinds);
    IsAdmission(Start(l, kinds), run);
    SameConns(Start(l, kinds), run);
    ForgottenIff(Start(l, kinds), kinds, run, t);
    var e := After(Start(l, kinds), run);
    assert Agrees(e.conns[t], e.slots.threads[t]);
  }

  // ---- slots are lost ----

  /** The three ways, each at a place where the program has it. */
  datatype Loss = LongHead | Dropped | Swept

  function KindOf(loss: Loss): OpenMetas.StreamKind {
    if loss.Swept? then OpenMetas.Udp else OpenMetas.Http
  }

  function KindsOf(losses: seq<Loss>): map<nat, OpenMetas.StreamKind> {
    map t: nat | 0 <= t < |losses| :: KindOf(losses[t])
  }

  function Exit(loss: Loss): What {
    match loss
    case LongHead => EncodeFail
    case Dropped => Cancel
    case Swept => Sweep
  }

  /** The first `i` connections have come and gone, each in its own way, and the others are still to come. */
  predicate Lost(s: State, losses: seq<Loss>, i: nat) {
    && s.conns.Keys == s.slots.threads.Keys == KindsOf(losses).Keys
    && forall t :: t in s.conns && t in s.slots.threads ==>
         && t < |losses| && s.conns[t] == Conn(KindOf(losses[t]), if t < i then Gone(false) else Arriving)
         && s.slots.threads[t] == if t < i then A.Held else A.Idle
  }

  lemma {:induction false} Chain(s: State, a: seq<Act>, b: seq<Act>)
    requires Possible(s, a) && Possible(After(s, a), b)
    ensures Possible(s, a + b) && After(s, a + b) == After(After(s, a), b)
    decreases |a|
  {
    hide Enabled, Apply;
    if a == [] {
      assert a + b == b;
    } else {
      Chain(Apply(s, a[0]), a[1..], b);
      assert (a + b)[0] == a[0] && (a + b)[1..] == a[1..] + b;
    }
  }

  lemma Then(s: State, run: seq<Act>, a: Act)
    requires Possible(s, run) && Enabled(After(s, run), a)
    ensures Possible(s, run + [a]) && After(s, run + [a]) == Apply(After(s, run), a)
  {
    hide Enabled, Apply;
    assert [a][1..] == [];
    Chain(s, run, [a]);
  }

  /** Connection `i` asks and is let in. */
  lemma LetIn(s: State, losses: seq<Loss>, i: nat)
    requires Lost(s, losses, i) && i < |losses| && !A.Over(s.slots.limits, s.slots.active)
    ensures Enabled(s, Act(i, Register))
    ensures var m := Apply(s, Act(i, Register));
            && Enabled(m, Act(i, Settle))
            && var e := Apply(m, Act(i, Settle));
               && e.slots.limits == s.slots.limits
               && e.conns == s.conns[i := Conn(KindOf(losses[i]), Opening)] && e.slots.threads == s.slots.threads[i := A.Held]
  {
    hide A.Slots, A.Max;
    var m := Apply(s, Act(i, Register));
    assert m.slots.threads[i].Peaking?;
  }

  lemma OneMore(s: State, e: State, losses: seq<Loss>, i: nat)
    requires Lost(s, losses, i) && i < |losses|
    requires e.conns == s.conns[i := Conn(KindOf(losses[i]), Gone(false))] && e.slots.threads == s.slots.threads[i := A.Held]
    ensures Lost(e, losses, i + 1)
  {
    hide KindsOf;
    assert i in s.conns.Keys by {
      Among(losses, i);
    }
  }

  lemma Among(losses: seq<Loss>, i: nat)
    requires i < |losses|
    ensures i in KindsOf(losses).Keys
  {
  }

  /** And leaves without giving its slot back. */
  lemma Leaves(s: State, e: State, losses: seq<Loss>, i: nat)
    requires Lost(s, losses, i) && i < |losses|
    requires e.conns == s.conns[i := Conn(KindOf(losses[i]), Opening)] && e.slots.threads == s.slots.threads[i := A.Held]
    ensures losses[i].LongHead? ==>
              Enabled(e, Act(i, EncodeFail)) && Lost(Apply(e, Act(i, EncodeFail)), losses, i + 1)
    ensures !losses[i].LongHead? ==>
              && Enabled(e, Act(i, Open))
              && var m := Apply(e, Act(i, Open)); Enabled(m, Act(i, Exit(losses[i]))) && Lost(Apply(m, Act(i, Exit(losses[i]))), losses, i + 1)
  {
    hide A.Apply, A.Enabled, Lost;
    var c := Conn(KindOf(losses[i]), Gone(false));
    if losses[i].LongHead? {
      assert e.conns[i := c] == s.conns[i := c];
      OneMore(s, Apply(e, Act(i, EncodeFail)), losses, i);
    } else {
      var m := Apply(e, Act(i, Open));
      assert m.conns[i := c] == s.conns[i := c];
      OneMore(s, Apply(m, Act(i, Exit(losses[i]))), losses, i);
    }
  }

  lemma {:induction false} LoseThem(l: A.Limits, losses: seq<Loss>, i: nat) returns (run: seq<Act>)
    requires |losses| < A.WRAP && i <= |losses| && (A.Cap(l).Some? ==> i <= A.Cap(l).value)
    ensures Possible(Start(l, KindsOf(losses)), run) && Lost(After(Start(l, KindsOf(losses)), run), losses, i)
    decreases i
  {
    hide Possible, After, Enabled, Apply, A.Inv, A.Over, A.Cap;
    var s := Start(l, KindsOf(losses));
    if i == 0 {
      run := [];
      Nothing(s);
    } else {
      run := LoseThem(l, losses, i - 1);
      Room(l, losses, run, i - 1);
      var e := After(s, run);
      LetIn(e, losses, i - 1);
      Then(s, run, Act(i - 1, Register));
      run := run + [Act(i - 1, Register)];
      Then(s, run, Act(i - 1, Settle));
      run := run + [Act(i - 1, Settle)];
      Leaves(e, After(s, run), losses, i - 1);
      if !losses[i - 1].LongHead? {
        Then(s, run, Act(i - 1, Open));
        run := run + [Act(i - 1, Open)];
      }
      Then(s, run, Act(i - 1, Exit(losses[i - 1])));
      run := run + [Act(i - 1, Exit(losses[i - 1]))];
    }
  }

  lemma Nothing(s: State)
    ensures Possible(s, []) && After(s, []) == s
  {
  }

  function Below(n: nat): (ts: set<nat>)
    ensures |ts| == n && forall t: nat :: t in ts <==> t < n
  {
    if n == 0 then {} else Below(n - 1) + {n - 1 as nat}
  }

  /** With `i` slots lost the counter is at `i`. */
  lemma CountLost(l: A.Limits, losses: seq<Loss>, run: seq<Act>, i: nat)
    requires |losses| < A.WRAP && i <= |losses| && Possible(Start(l, KindsOf(losses)), run)
    requires Lost(After(Start(l, KindsOf(losses)), run), losses, i)
    ensures var e := After(Start(l, KindsOf(losses)), run); e.slots.active == i && e.slots.limits == l
  {
    hide Possible, After, A.Inv;
    KindCount(losses);
    AsCounters(l, KindsOf(losses), run);
    var e := After(Start(l, KindsOf(losses)), run);
    assert A.Busy(e.slots) == Below(i);
  }

  lemma KindCount(losses: seq<Loss>)
    ensures |KindsOf(losses)| == |losses|
  {
    assert KindsOf(losses).Keys == Below(|losses|);
    assert |KindsOf(losses)| == |KindsOf(losses).Keys|;
  }

  lemma Room(l: A.Limits, losses: seq<Loss>, run: seq<Act>, i: nat)
    requires |losses| < A.WRAP && i < |losses| && Possible(Start(l, KindsOf(losses)), run)
    requires Lost(After(Start(l, KindsOf(losses)), run), losses, i) && (A.Cap(l).Some? ==> i < A.Cap(l).value)
    ensures var e := After(Start(l, KindsOf(losses)), run); !A.Over(e.slots.limits, e.slots.active)
  {
    hide Possible, After, A.Over, A.Cap;
    CountLost(l, losses, run, i);
    A.OverIff(l, i);
  }

  /** It does happen: connections that leave in these ways, in any mixture up to the limit, all keep their slots. */
  lemma SlotsLost(l: A.Limits, losses: seq<Loss>)
    requires |losses| < A.WRAP && (A.Cap(l).Some? ==> |losses| <= A.Cap(l).value)
    ensures var s := Start(l, KindsOf(losses));
            exists run :: Possible(s, run) && AtRest(After(s, run)) && After(s, run).slots.active == |losses|
  {
    hide Possible, After, A.Cap;
    var run := LoseThem(l, losses, |losses|);
    CountLost(l, losses, run, |losses|);
    assert AtRest(After(Start(l, KindsOf(losses)), run));
  }

  /** And at the limit the next connection is refused although nobody is there. */
  lemma NobodyGetsIn(l: A.Limits, losses: seq<Loss>)
    requires |losses| < A.WRAP && A.Cap(l).Some? && |losses| == A.Cap(l).value + 1
    ensures var s := Start(l, KindsOf(losses)); var t := |losses| - 1;
            exists run :: Possible(s, run) && Lost(After(s, run), losses, t) && Enabled(After(s, run), Act(t, Register)) &&
                          var e := Apply(After(s, run), Act(t, Register)); t in e.slots.threads && e.slots.threads[t].Undoing?
  {
    hide Possible, After, A.Cap, A.Over;
    var t := |losses| - 1;
    var run := LoseThem(l, losses, t);
    CountLost(l, losses, run, t);
    A.OverIff(l, t);
    assert Enabled(After(Start(l, KindsOf(losses)), run), Act(t, Register));
  }

  // ---- every way out ----

  /** The one connection of a session has been let in. */
  predicate Alone(s: State, kind: OpenMetas.StreamKind, place: Place) {
    s.conns == map[0 := Conn(kind, place)] && s.slots.threads == map[0 := A.Held] && s.slots.active == 1
  }

  lemma GetsIn(l: A.Limits, kind: OpenMetas.StreamKind) returns (run: seq<Act>)
    ensures Possible(Start(l, map[0 := kind]), run) && Alone(After(Start(l, map[0 := kind]), run), kind, Opening)
  {
    hide A.Slots, A.Max;
    var s := Start(l, map[0 := kind]);
    assert s.slots.threads == map[0 := A.Idle] && s.conns == map[0 := Conn(kind, Arriving)];
    Nothing(s);
    Then(s, [], Act(0, Register));
    var m := Apply(s, Act(0, Register));
    assert m.slots.threads == map[0 := A.Peaking(0)] && m.slots.active == 1;
    run := [] + [Act(0, Register)];
    Then(s, run, Act(0, Settle));
    run := run + [Act(0, Settle)];
  }

  lemma Moves(s: State, kind: OpenMetas.StreamKind, place: Place, what: What)
    requires Alone(s, kind, place)
    ensures place.Opening? && what.Open? ==> Enabled(s, Act(0, what)) && Alone(Apply(s, Act(0, what)), kind, Serving)
    ensures place.Serving? && what.HandOver? && !kind.Udp? ==> Enabled(s, Act(0, what)) && Alone(Apply(s, Act(0, what)), kind, Winding)
  {
  }

  lemma GoesOut(s: State, kind: OpenMetas.StreamKind, place: Place, what: What)
    requires Alone(s, kind, place)
    requires match what
      case EncodeFail => place.Opening?
      case SendFail => place.Opening? && !kind.Udp?
      case GiveUp => place.Serving? && kind.Http?
      case Clean => place.Winding?
      case Cancel => place.Serving? && kind.Http?
      case Sweep => place.Serving? && kind.Udp?
      case _ => false
    ensures Enabled(s, Act(0, what)) && AtRest(Apply(s, Act(0, what)))
    ensures Apply(s, Act(0, what)).slots.active ==
            if what.Cancel? || what.Sweep? || (what.EncodeFail? && kind.Http?) then 1 else 0
  {
    hide A.Slots, A.Max;
  }

  /**
   * Whatever the limits, a connection can end in each of the ways its kind has: afterwards the counter of a session with
   * no other connection is back at zero, except for the three ways that keep the slot.
   */
  lemma WaysOut(l: A.Limits, kind: OpenMetas.StreamKind, what: What)
    requires match what
      case EncodeFail => true
      case SendFail => !kind.Udp?
      case GiveUp => kind.Http?
      case Clean => !kind.Udp?
      case Cancel => kind.Http?
      case Sweep => kind.Udp?
      case _ => false
    ensures var s := Start(l, map[0 := kind]);
            exists run :: Possible(s, run + [Act(0, what)]) && AtRest(After(s, run + [Act(0, what)])) &&
                          After(s, run + [Act(0, what)]).slots.active ==
                          if what.Cancel? || what.Sweep? || (what.EncodeFail? && kind.Http?) then 1 else 0
  {
    hide Possible, After, Enabled, Apply, AtRest, Alone;
    var s := Start(l, map[0 := kind]);
    var run := GetsIn(l, kind);
    var place := Opening;
    if !what.EncodeFail? && !what.SendFail? {
      Moves(After(s, run), kind, place, Open);
      Then(s, run, Act(0, Open));
      run, place := run + [Act(0, Open)], Serving;
    }
    if what.Clean? {
      Moves(After(s, run), kind, place, HandOver);
      Then(s, run, Act(0, HandOver));
      run, place := run + [Act(0, HandOver)], Winding;
    }
    GoesOut(After(s, run), kind, place, what);
    Then(s, run, Act(0, what));
  }
}
