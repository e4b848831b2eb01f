/** The loop that keeps the served certificate valid. Times are seconds; `now_secs` rounds them down. */
module Renewal {
  import opened Bytes

  const LEAD: int := 30 * 24 * 3600
  const MAX_NAP: int := 12 * 3600
  const RETRY: int := 60

  /**
   * What one pass of the loop meets: the expiry of the bundle in the cache if one is there and can be read, how
   * long `ensure_issued` took, how late the timer was, the expiry of the certificate that issuing yields if it
   * succeeds, and whether a certificate can be installed.
   */
  datatype Round = Round(cached: Option<int>, took: real, late: real, issued: Option<int>, installs: bool)

  /** `owed` is the time the served certificate has lasted beyond what naps account for. */
  datatype State = State(now: real, notAfter: int, owed: real)

  /** The cached certificate is served again if it has more than the lead left, and only then. */
  predicate StillGood(s: State, r: Round) {
    r.cached.Some? && r.cached.value > s.now.Floor + LEAD
  }

  /** What the pass installs, if anything: the cached certificate, or else the one it has got issued. */
  function Gains(s: State, r: Round): Option<int> {
    if !r.installs then None else if StillGood(s, r) then r.cached else r.issued
  }

  /** What the source promises of a round: a certificate that is issued has more than the lead left. */
  predicate Enabled(s: State, r: Round) {
    && r.took >= 0.0 && r.late >= 0.0
    && (!StillGood(s, r) && r.issued.Some? ==> r.issued.value as real - (s.now + r.took) > LEAD as real)
  }

  /** `(secs_left - RENEW_LEAD).max(60)`, at most twelve hours. */
  function Nap(secsLeft: int): int {
    var n := if secsLeft - LEAD >= RETRY then secsLeft - LEAD else RETRY;
    if n <= MAX_NAP then n else MAX_NAP
  }

  /** When `ensure_issued` has returned. */
  function Returned(s: State, r: Round): real {
    s.now + r.took
  }

  function Sleep(s: State, r: Round): int {
    if Gains(s, r).None? then RETRY else Nap(Gains(s, r).value - Returned(s, r).Floor)
  }

  function Next(s: State, r: Round): State
    requires Enabled(s, r)
  {
    var woken := Returned(s, r) + Sleep(s, r) as real + r.late;
    match Gains(s, r)
    case None => State(woken, s.notAfter, s.owed + r.took + RETRY as real + r.late)
    case Some(notAfter) => State(woken, notAfter, r.late + if StillGood(s, r) then r.took else 0.0)
  }

  // ---- the loop's times, in seconds ----

  /**
   * A pass serves the cached certificate again exactly if it has more than thirty days left, and asks for a new one
   * otherwise; a pass that installs nothing keeps the old one.
   */
  lemma ReusedIff(s: State, r: Round)
    requires Enabled(s, r) && r.installs
    ensures r.cached.Some? && r.cached.value - s.now.Floor > 2_592_000 ==> Next(s, r).notAfter == r.cached.value
    ensures !(r.cached.Some? && r.cached.value - s.now.Floor > 2_592_000) ==>
              Next(s, r).notAfter == if r.issued.Some? then r.issued.value else s.notAfter
  {
  }

  /**
   * How long a pass sleeps: a minute if it has installed nothing. Otherwise never less than a minute or more than twelve
   * hours, and within that until thirty days are left.
   */
  lemma SleepsRight(s: State, r: Round)
    requires Enabled(s, r)
    ensures var e := Next(s, r); var slept := e.now - (s.now + r.took) - r.late; var left := e.notAfter - (s.now + r.took).Floor;
            && 60.0 <= slept <= 43_200.0
            && (!r.installs ==> slept == 60.0 && e.notAfter == s.notAfter)
            && (r.installs && (StillGood(s, r) || r.issued.Some?) ==>
                  && (left - 2_592_000 <= 60 ==> slept == 60.0)
                  && (60 <= left - 2_592_000 <= 43_200 ==> slept == (left - 2_592_000) as real)
                  && (left - 2_592_000 >= 43_200 ==> slept == 43_200.0))
  {
  }

  /** More than the lead less one retry is left, but for the time that is owed. */
  predicate Lasting(s: State) {
    s.owed >= 0.0 && s.notAfter as real - s.now > (LEAD - RETRY) as real - s.owed
  }

  lemma FloorBelow(x: real)
    ensures x - 1.0 < x.Floor as real <= x
  {
  }

  /** What is left when a nap of the right length ends. */
  lemma AfterNap(left: real, returned: real, notAfter: int)
    requires left == notAfter as real - returned
    ensures left - Nap(notAfter - returned.Floor) as real >= LEAD as real - 1.0 || Nap(notAfter - returned.Floor) == RETRY
  {
    FloorBelow(returned);
  }

  lemma KeepLasting(s: State, r: Round)
    requires Lasting(s) && Enabled(s, r)
    ensures Lasting(Next(s, r))
  {
    FloorBelow(s.now);
    if Gains(s, r).Some? {
      var notAfter := Gains(s, r).value;
      AfterNap(notAfter as real - Returned(s, r), Returned(s, r), notAfter);
    }
  }

  /** The certificate served at an instant of the round, and what is owed by then. */
  datatype Instant = Instant(at: real, notAfter: int, owed: real)

  /** While `ensure_issued` runs the old certificate is served; then the new one, if there is one. */
  predicate During(s: State, r: Round, i: Instant)
    requires Enabled(s, r)
  {
    var e := Next(s, r);
    if s.now <= i.at < Returned(s, r) then i.notAfter == s.notAfter && i.owed == s.owed + (i.at - s.now)
    else
      && Returned(s, r) <= i.at <= e.now && i.notAfter == e.notAfter
      && i.owed == if Gains(s, r).None? then s.owed + (i.at - s.now) else e.owed
  }

  /** At every instant of a round the served certificate has more than the lead less one retry left, less what is owed. */
  lemma EveryInstant(s: State, r: Round, i: Instant)
    requires Lasting(s) && Enabled(s, r) && During(s, r, i)
    ensures i.notAfter as real - i.at > 2_591_940.0 - i.owed
  {
    KeepLasting(s, r);
  }

  predicate Possible(s: State, rounds: seq<Round>)
    decreases |rounds|
  {
    rounds == [] || (Enabled(s, rounds[0]) && Possible(Next(s, rounds[0]), rounds[1..]))
  }

  function After(s: State, rounds: seq<Round>): State
    requires Possible(s, rounds)
    decreases |rounds|
  {
    if rounds == [] then s else After(Next(s, rounds[0]), rounds[1..])
  }

  lemma {:induction false} KeepRun(s: State, rounds: seq<Round>)
    requires Lasting(s) && Possible(s, rounds)
    ensures Lasting(After(s, rounds))
    decreases |rounds|
  {
    hide Enabled, Next, Lasting;
    if rounds != [] {
      KeepLasting(s, rounds[0]);
      KeepRun(Next(s, rounds[0]), rounds[1..]);
    }
  }

  /** When the first certificate has just been installed. */
  predicate Installed(s: State) {
    s.owed == 0.0 && s.notAfter as real - s.now > 2_592_000.0
  }

  /** From the first install on, over every run of the loop and at every instant of it. */
  lemma AlwaysLasting(s: State, rounds: seq<Round>, r: Round, i: Instant)
    requires Installed(s) && Possible(s, rounds) && Enabled(After(s, rounds), r) && During(After(s, rounds), r, i)
    ensures i.notAfter as real - i.at > 2_591_940.0 - i.owed
  {
    hide Enabled, Next, During, Possible, After;
    KeepRun(s, rounds);
    EveryInstant(After(s, rounds), r, i);
  }

  /** A pass that installs a certificate, takes no time for it and is woken on time. */
  predicate Prompt(s: State, r: Round) {
    Gains(s, r).Some? && r.took == 0.0 && r.late == 0.0
  }

  predicate AllPrompt(s: State, rounds: seq<Round>)
    requires Possible(s, rounds)
    decreases |rounds|
  {
    rounds == [] || (Prompt(s, rounds[0]) && AllPrompt(Next(s, rounds[0]), rounds[1..]))
  }

  lemma {:induction false} OwesNothing(s: State, rounds: seq<Round>)
    requires s.owed == 0.0 && Possible(s, rounds) && AllPrompt(s, rounds)
    ensures After(s, rounds).owed == 0.0
    decreases |rounds|
  {
    hide Enabled;
    if rounds != [] {
      OwesNothing(Next(s, rounds[0]), rounds[1..]);
    }
  }

  /** Not counting the time spent issuing, more than thirty days less a minute are left throughout. */
  lemma ThirtyDaysLessAMinute(s: State, rounds: seq<Round>, r: Round, i: Instant)
    requires Installed(s) && Possible(s, rounds) && Enabled(After(s, rounds), r) && During(After(s, rounds), r, i)
    requires AllPrompt(s, rounds) && Prompt(After(s, rounds), r)
    ensures i.notAfter as real - i.at > 2_591_940.0
  {
    AlwaysLasting(s, rounds, r, i);
    OwesNothing(s, rounds);
  }

  /** The minute is needed: a certificate with just over the lead left is napped on for a whole retry. */
  lemma TheMinuteIsUsed()
    ensures exists s, r :: Installed(s) && Enabled(s, r) && Prompt(s, r) &&
                           Next(s, r).notAfter as real - Next(s, r).now == 2_591_941.0
  {
    var s := State(0.0, LEAD + 1, 0.0);
    var r := Round(Some(LEAD + 1), 0.0, 0.0, None, true);
    FloorBelow(0.0);
    assert Nap(LEAD + 1) == RETRY;
    assert Installed(s) && Enabled(s, r) && Prompt(s, r);
    assert Next(s, r).notAfter as real - Next(s, r).now == 2_591_941.0;
  }

  lemma Unroll(s: State, rounds: seq<Round>)
    requires rounds != [] && Possible(s, rounds)
    ensures Enabled(s, rounds[0]) && Possible(Next(s, rounds[0]), rounds[1..])
    ensures After(s, rounds) == After(Next(s, rounds[0]), rounds[1..])
  {
    hide Enabled, Next;
  }

  // ---- the loop ----

  class Loop {
    var now: real
    var notAfter: int
    ghost var owed: real

    ghost function Value(): State
      reads this
    {
      State(now, notAfter, owed)
    }

    constructor (now: real, notAfter: int)
      ensures Value() == State(now, notAfter, 0.0)
    {
      this.now, this.notAfter, owed := now, notAfter, 0.0;
    }

    /** Install the cached certificate while it is good, otherwise issue one; sleep accordingly. */
    method Pass(r: Round)
      requires Enabled(Value(), r)
      modifies this
      ensures Value() == Next(old(Value()), r)
    {
      var good := false;
      if r.cached.Some? {
        good := r.cached.value > now.Floor + LEAD;
      }
      now := now + r.took;
      var offered := if good then r.cached else r.issued;
      if r.installs && offered.Some? {
        notAfter := offered.value;
        owed := r.late + if good then r.took else 0.0;
        now := now + Nap(notAfter - now.Floor) as real + r.late;
      } else {
        owed := owed + r.took + RETRY as real + r.late;
        now := now + RETRY as real + r.late;
      }
    }

    method Run(rounds: seq<Round>)
      requires Possible(Value(), rounds)
      modifies this
      ensures Value() == After(old(Value()), rounds)
    {
      hide Enabled, Next;
      var n := 0;
      assert rounds[0..] == rounds;
      while n < |rounds|
        invariant 0 <= n <= |rounds|
        invariant Possible(Value(), rounds[n..]) && After(Value(), rounds[n..]) == After(old(Value()), rounds)
      {
        Unroll(Value(), rounds[n..]);
        assert rounds[n..][0] == rounds[n] && rounds[n..][1..] == rounds[n + 1..];
        Pass(rounds[n]);
        n := n + 1;
      }
    }
  }
}
