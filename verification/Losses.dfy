/**
 * When a stream can lose anything: which labels of a session take it off a table, and that no frame of a stream
 * that is listed is thrown away, however many are on their way.
 */
module Losses {
  import opened Bytes
  import opened Items
  import opened Lanes
  import opened Links
  import opened HttpHead
  import opened Tunnel
  import opened Transparency

  /** On the broker's table, with somebody to take its frames. */
  predicate Listed(u: Lane) {
    u.created && u.dir.Up? && u.drain.entry.Live? && u.drain.rx
  }

  lemma OpListed(u: Lane, op: Op)
    requires Listed(u) && Enabled(u, op) && !op.CloseRx? && !op.Clear? && !op.Stall?
    ensures Listed(Apply(u, op))
  {
    hide Carry, LeadCount, EmptyLeads, MayBuffer;
  }

  lemma OpUnlists(u: Lane, op: Op)
    requires u.dir.Up? && Enabled(u, op) && u.drain.entry.Live? && !Apply(u, op).drain.entry.Live?
    ensures op.Clear? || op.Stall? || (op.Dispatch? && !u.drain.rx)
  {
    hide Carry, LeadCount, EmptyLeads, MayBuffer;
  }

  // ---- steps ----

  /** Steps that cannot take `t` off the table or away from its receiver. */
  predicate Harmless(st: Step, t: u32) {
    match st
    case Local(id, op) => id == t ==> !op.CloseRx? && !op.Clear?
    case Create(id, _) => id != t
    case Reserve(id) => id != t
    case StallHeld => false
    case _ => true
  }

  lemma StepListed(k: Link, st: Step, t: u32)
    requires LinkInv(k) && StepEnabled(k, st) && Harmless(st, t) && Listed(View(k, t))
    ensures Listed(View(StepApply(k, st), t))
  {
    hide Project, Decode, Encode, Fits, Apply, Enabled, Route, Good, Listed;
    var op := OpFor(k, st, t);
    if op.Some? {
      Simulates(k, st, t);
      OpListed(View(k, t), op.value);
    } else {
      Isolated(k, st, t);
    }
  }

  lemma {:induction false} StepsListed(k: Link, steps: seq<Step>, t: u32)
    requires LinkInv(k) && Listed(View(k, t)) && forall st :: st in steps ==> Harmless(st, t)
    ensures Listed(View(RunSteps(k, steps), t))
    decreases |steps|
  {
    hide LinkInv, StepEnabled, StepApply, View, Listed;
    if steps != [] {
      assert steps[0] in steps;
      if StepEnabled(k, steps[0]) {
        StepListed(k, steps[0], t);
        KeepLink(k, steps[0]);
        StepsListed(StepApply(k, steps[0]), steps[1..], t);
      } else {
        StepsListed(k, steps[1..], t);
      }
    }
  }

  // ---- labels ----

  /** The stream's own connection winds up, or the loop has waited for its visitor for too long. */
  predicate Removes(s: Tunnel, l: Label, t: u32) {
    || (l.Conn? && l.id == t &&
        (l.conn.Upgrade? || l.conn.Refuse? || l.conn.Hangup? || l.conn.Leave? || l.conn.Detach? || l.conn.Clear?))
    || (l == Loop(BrokerStall) && Holds(s.up, t))
  }

  lemma UpHarmless(s: Tunnel, l: Label, t: u32)
    requires !Removes(s, l, t) && l != Loop(BrokerStall) && !((l.Accept? || l.DrawId?) && NextId(s.issued) == t)
    ensures forall st :: st in UpSteps(s, l) ==> Harmless(st, t)
  {
    hide View, Chunks, HeadEnd, EndsAt, StepEnabled;
  }

  /** Nothing else takes a stream off the broker's table, whatever is queued for it. */
  lemma StaysListed(s: Tunnel, l: Label, t: u32)
    requires TunnelInv(s) && Guard(s, l) && (l.Accept? || l.DrawId? ==> s.issued < ID_SPACE)
    requires Listed(U(s, t)) && !Removes(s, l, t)
    ensures Listed(U(Next(s, l), t))
  {
    hide LinkInv, UpSteps, DownSteps, RunSteps, Rejected, Guard, View;
    Both(s);
    if l == Loop(BrokerStall) {
      Isolation(s, l, t);
    } else {
      OldId(s, l, t);
      UpHarmless(s, l, t);
      StepsListed(s.up, UpSteps(s, l), t);
    }
  }

  /** An id is not drawn twice. */
  lemma OldId(s: Tunnel, l: Label, t: u32)
    requires TunnelInv(s) && U(s, t).created && (l.Accept? || l.DrawId? ==> s.issued < ID_SPACE)
    ensures !((l.Accept? || l.DrawId?) && NextId(s.issued) == t)
  {
    hide Project, LinkInv;
    if (l.Accept? || l.DrawId?) && NextId(s.issued) == t {
      DrawReady(s);
    }
  }

  // ---- leaving the table ----

  predicate Entered(u: Lane) {
    u.created && u.dir.Up? && u.drain.entry.Live?
  }

  predicate Keeping(st: Step, t: u32) {
    match st
    case Local(id, op) => id == t ==> !op.Clear?
    case Create(id, _) => id != t
    case Reserve(id) => id != t
    case StallHeld => false
    case Receive(_) => false
    case _ => true
  }

  lemma StepKeeps(k: Link, st: Step, t: u32)
    requires LinkInv(k) && StepEnabled(k, st) && Keeping(st, t) && Entered(View(k, t))
    ensures Entered(View(StepApply(k, st), t))
  {
    hide Project, Decode, Encode, Fits, Apply, Enabled, Route, Good;
    var op := OpFor(k, st, t);
    if op.Some? {
      Simulates(k, st, t);
      SameLane(View(k, t), op.value);
      if !Apply(View(k, t), op.value).drain.entry.Live? {
        OpUnlists(View(k, t), op.value);
      }
    } else {
      Isolated(k, st, t);
    }
  }

  lemma SameLane(l: Lane, op: Op)
    requires Enabled(l, op)
    ensures Apply(l, op).dir == l.dir && Apply(l, op).created
  {
  }

  lemma {:induction false} StepsKeep(k: Link, steps: seq<Step>, t: u32)
    requires LinkInv(k) && Entered(View(k, t)) && forall st :: st in steps ==> Keeping(st, t)
    ensures Entered(View(RunSteps(k, steps), t))
    decreases |steps|
  {
    hide LinkInv, StepEnabled, StepApply, View, Entered;
    if steps != [] {
      assert steps[0] in steps;
      if StepEnabled(k, steps[0]) {
        StepKeeps(k, steps[0], t);
        KeepLink(k, steps[0]);
        StepsKeep(StepApply(k, steps[0]), steps[1..], t);
      } else {
        StepsKeep(k, steps[1..], t);
      }
    }
  }

  /** Its own connection takes it off: at the end, when it refuses, or early. */
  predicate TakesOff(l: Label, t: u32) {
    l.Conn? && l.id == t && (l.conn.Leave? || l.conn.Refuse? || l.conn.Clear?)
  }

  lemma UpKeeping(s: Tunnel, l: Label, t: u32)
    requires !TakesOff(l, t) && !(l.Loop? && (l.loop.BrokerStall? || l.loop.BrokerReceive?))
    requires !((l.Accept? || l.DrawId?) && NextId(s.issued) == t)
    ensures forall st :: st in UpSteps(s, l) ==> Keeping(st, t)
  {
    hide View, Chunks, HeadEnd, EndsAt, StepEnabled;
  }

  /**
   * A stream leaves the broker's table only when its own connection takes it off, when the loop has waited for its
   * visitor for too long, or when the loop has a frame for it and its receiver is gone.
   */
  lemma LeavesTableOnly(s: Tunnel, l: Label, t: u32)
    requires TunnelInv(s) && Guard(s, l) && (l.Accept? || l.DrawId? ==> s.issued < ID_SPACE)
    requires Entered(U(s, t)) && !Entered(U(Next(s, l), t))
    ensures TakesOff(l, t) || (l == Loop(BrokerStall) && Holds(s.up, t)) ||
            (l == Loop(BrokerReceive) && Decodes(s.up, t) && !U(s, t).drain.rx)
  {
    hide LinkInv, UpSteps, DownSteps, RunSteps, Rejected, Guard, View, Decodes, Holds;
    Both(s);
    if l == Loop(BrokerStall) || l == Loop(BrokerReceive) {
      if !About(s, l, t) {
        Isolation(s, l, t);
      } else if l == Loop(BrokerReceive) && U(s, t).drain.rx {
        StaysListed(s, l, t);
      }
    } else if !TakesOff(l, t) {
      OldId(s, l, t);
      UpKeeping(s, l, t);
      StepsKeep(s.up, UpSteps(s, l), t);
    }
  }

  // ---- over a run ----

  /** No label of the run winds the stream up or finds its visitor stalled. */
  predicate Undisturbed(s: Tunnel, run: seq<Label>, t: u32)
    requires Possible(s, run)
    decreases |run|
  {
    run == [] || (!Removes(s, run[0], t) && Undisturbed(Next(s, run[0]), run[1..], t))
  }

  lemma {:induction false} RunListed(s: Tunnel, run: seq<Label>, t: u32)
    requires TunnelInv(s) && Possible(s, run) && After(s, run).issued <= ID_SPACE && Listed(U(s, t)) && Undisturbed(s, run, t)
    ensures Listed(U(After(s, run), t))
    decreases |run|
  {
    hide Guard, DownSteps, UpSteps, RunSteps, Rejected, TunnelInv, View, Listed, Removes;
    if run != [] {
      IssuedGrows(Next(s, run[0]), run[1..]);
      KeepTunnel(s, run[0]);
      StaysListed(s, run[0], t);
      RunListed(Next(s, run[0]), run[1..], t);
    }
  }

  /**
   * So a burst is not cut short: as long as the visitor's side neither winds up nor stalls, every byte its local service
   * has sent is written, being written or on its way, however many frames are queued, held or in the socket.
   */
  lemma NothingTruncated(s: Tunnel, run: seq<Label>, t: u32)
    requires TunnelInv(s) && Possible(s, run) && After(s, run).issued <= ID_SPACE && Listed(U(s, t)) && Undisturbed(s, run, t)
    ensures var u := U(After(s, run), t);
            Feeding(u) && !u.source.lost ==>
              u.source.read == u.drain.out + u.drain.cur + Carry(u.drain.chan + u.hold + (u.flow + u.source.pend)) + u.source.uncut
  {
    hide Guard, DownSteps, UpSteps, RunSteps, Rejected, View, Carry, LinkInv, Possible, After, Removes;
    hide HasFin, FinLast, LeadCount, LeadFirst, EmptyLeads, Undisturbed, FinInv, LeadInv;
    RunListed(s, run, t);
    KeepRun(s, run);
    LaneGood(After(s, run), t);
  }

  lemma LaneGood(s: Tunnel, t: u32)
    requires TunnelInv(s)
    ensures Inv(U(s, t))
  {
  }
}
