/**
 * What a session promises its endpoints, for every run of the machine in `Tunnel`: bytes come out as they
 * went in, streams do not touch each other, and a stream that is given up keeps what it was given.
 */
module Transparency {
  import opened Bytes
  import opened Items
  import opened Lanes
  import opened Links
  import opened HttpHead
  import opened Tunnel
  import Frames

  // ---- what goes in at one end and comes out at the other ----

  /** What label `l` reads from visitor `t`: the request head inside the Open frame, or a piece of the body. */
  function FromVisitor(s: Tunnel, l: Label, t: u32): seq<byte> {
    if l.Accept? && NextId(s.issued) == t then l.head
    else if l.Conn? && l.id == t && l.conn.Read? then l.conn.data
    else []
  }

  /** What it writes to the local service. */
  function ToLocal(s: Tunnel, l: Label, t: u32): seq<byte> {
    if l.Task? && l.id == t && l.task.Output? && l.task.n <= |D(s, t).drain.cur| then D(s, t).drain.cur[..l.task.n] else []
  }

  function FromLocal(l: Label, t: u32): seq<byte> {
    if l.Task? && l.id == t && l.task.LocalRead? then l.task.data else []
  }

  function ToVisitor(s: Tunnel, l: Label, t: u32): seq<byte> {
    if l.Conn? && l.id == t && l.conn.Write? && l.conn.n <= |U(s, t).drain.cur| then U(s, t).drain.cur[..l.conn.n] else []
  }

  datatype Traffic = Traffic(visitorSent: seq<byte>, localGot: seq<byte>, localSent: seq<byte>, visitorGot: seq<byte>)

  /** All that stream `t`'s two sockets saw during a run. */
  function Seen(s: Tunnel, run: seq<Label>, t: u32): Traffic
    requires Possible(s, run)
    decreases |run|
  {
    if run == [] then Traffic([], [], [], []) else
    var l := run[0];
    var rest := Seen(Next(s, l), run[1..], t);
    Traffic(FromVisitor(s, l, t) + rest.visitorSent, ToLocal(s, l, t) + rest.localGot,
            FromLocal(l, t) + rest.localSent, ToVisitor(s, l, t) + rest.visitorGot)
  }

  function StepReads(st: Step, t: u32): seq<byte> {
    match st
    case Local(id, op) => if id == t then Reads(op) else []
    case Create(id, lane) => if id == t then lane.source.read else []
    case _ => []
  }

  function StepWrites(k: Link, st: Step, t: u32): seq<byte> {
    match st
    case Local(id, op) => if id == t then Writes(View(k, t), op) else []
    case Create(id, lane) => if id == t then lane.drain.out else []
    case _ => []
  }

  function RunReads(steps: seq<Step>, t: u32): seq<byte> {
    if steps == [] then [] else StepReads(steps[0], t) + RunReads(steps[1..], t)
  }

  function RunWrites(k: Link, steps: seq<Step>, t: u32): seq<byte>
    requires AllEnabled(k, steps)
    decreases |steps|
  {
    if steps == [] then [] else StepWrites(k, steps[0], t) + RunWrites(StepApply(k, steps[0]), steps[1..], t)
  }

  lemma StepHistory(k: Link, st: Step, t: u32)
    requires LinkInv(k) && StepEnabled(k, st)
    ensures View(StepApply(k, st), t).source.read == View(k, t).source.read + StepReads(st, t)
    ensures View(StepApply(k, st), t).drain.out == View(k, t).drain.out + StepWrites(k, st, t)
  {
    hide Project, Decode, Encode, Fits, Apply, Enabled, Route, Good;
    assert Inv(View(k, t));
    if !st.Create? {
      Simulates(k, st, t);
      var op := OpFor(k, st, t);
      if op.Some? {
        EnabledCreated(View(k, t), op.value);
        Histories(View(k, t), op.value);
      } else {
        Isolated(k, st, t);
      }
    }
  }

  lemma EnabledCreated(l: Lane, op: Op)
    requires Enabled(l, op)
    ensures l.created
  {
  }

  lemma {:induction false} RunHistory(k: Link, steps: seq<Step>, t: u32)
    requires LinkInv(k) && AllEnabled(k, steps)
    ensures View(RunSteps(k, steps), t).source.read == View(k, t).source.read + RunReads(steps, t)
    ensures View(RunSteps(k, steps), t).drain.out == View(k, t).drain.out + RunWrites(k, steps, t)
    decreases |steps|
  {
    hide LinkInv, StepEnabled, StepApply, View, StepReads, StepWrites;
    if steps != [] {
      var k' := StepApply(k, steps[0]);
      StepHistory(k, steps[0], t);
      KeepLink(k, steps[0]);
      RunHistory(k', steps[1..], t);
      Join(View(k, t).source.read, StepReads(steps[0], t), RunReads(steps[1..], t));
      Join(View(k, t).drain.out, StepWrites(k, steps[0], t), RunWrites(k', steps[1..], t));
    }
  }

  lemma Reads1(st: Step, t: u32)
    ensures RunReads([st], t) == StepReads(st, t)
  {
    assert [st][1..] == [];
  }

  lemma Writes1(k: Link, st: Step, t: u32)
    requires AllEnabled(k, [st])
    ensures RunWrites(k, [st], t) == StepWrites(k, st, t)
  {
    hide StepEnabled, StepApply, StepWrites;
    assert [st][1..] == [];
  }

  /** Steps that neither read nor write for `t`. */
  predicate Quiet(st: Step, t: u32) {
    match st
    case Local(id, op) => id == t ==> !op.Read? && !op.Write?
    case Create(id, _) => id != t
    case _ => true
  }

  lemma {:induction false} QuietSteps(k: Link, steps: seq<Step>, t: u32)
    requires AllEnabled(k, steps) && forall st :: st in steps ==> Quiet(st, t)
    ensures RunReads(steps, t) == [] && RunWrites(k, steps, t) == []
    decreases |steps|
  {
    hide StepEnabled, StepApply, View;
    if steps != [] {
      assert steps[0] in steps;
      QuietSteps(StepApply(k, steps[0]), steps[1..], t);
    }
  }

  /** Steps that write nothing for `t`. */
  lemma {:induction false} DrySteps(k: Link, steps: seq<Step>, t: u32)
    requires AllEnabled(k, steps) && forall st :: st in steps ==> st.Local? && !st.op.Write?
    ensures RunWrites(k, steps, t) == []
    decreases |steps|
  {
    hide StepEnabled, StepApply, View;
    if steps != [] {
      assert steps[0] in steps;
      DrySteps(StepApply(k, steps[0]), steps[1..], t);
    }
  }

  lemma LoopQuiet(s: Tunnel, a: LoopStep, t: u32)
    ensures forall st :: st in LoopDown(s, a) || st in LoopUp(s, a) ==> Quiet(st, t)
  {
    hide View, StepEnabled;
  }

  lemma ConnQuiet(id: u32, d: Lane, u: Lane, a: ConnStep, t: u32)
    ensures id != t || !a.Read? ==> forall st :: st in ConnDown(id, d, a) ==> Quiet(st, t)
    ensures id != t || !a.Write? ==> forall st :: st in ConnUp(id, u, a) ==> Quiet(st, t)
  {
    hide View, Chunks;
  }

  lemma TaskQuiet(id: u32, d: Lane, u: Lane, a: TaskStep, t: u32)
    ensures id != t || !a.Output? ==> forall st :: st in TaskDown(id, d, u, a) ==> Quiet(st, t)
    ensures id != t || (!a.LocalRead? && !a.TcpAck?) ==> forall st :: st in TaskUp(id, u, a) ==> Quiet(st, t)
  {
    hide View, Chunks, HeadEnd, EndsAt;
  }

  lemma LocalReads(k: Link, id: u32, u: Lane, data: seq<byte>)
    requires AllEnabled(k, LocalSteps(id, u, data))
    ensures RunReads(LocalSteps(id, u, data), id) == data && RunWrites(k, LocalSteps(id, u, data), id) == []
  {
    hide View, Chunks, HeadEnd, EndsAt, StepEnabled, StepApply, Carry;
    var steps := LocalSteps(id, u, data);
    assert |steps| == 2 ==> steps[1..] == [steps[1]];
    assert |steps| == 1 ==> steps == [steps[0]];
    assert data + [] == data;
    DrySteps(k, steps, id);
    Reads1(steps[0], id);
    if |steps| == 2 {
      Reads1(steps[1], id);
    }
  }

  lemma ConnHistory(s: Tunnel, id: u32, a: ConnStep, t: u32)
    requires AllEnabled(s.down, ConnDown(id, D(s, id), a)) && AllEnabled(s.up, ConnUp(id, U(s, id), a))
    ensures var l := Conn(id, a);
            && RunReads(ConnDown(id, D(s, id), a), t) == FromVisitor(s, l, t)
            && RunWrites(s.down, ConnDown(id, D(s, id), a), t) == []
            && RunReads(ConnUp(id, U(s, id), a), t) == []
            && RunWrites(s.up, ConnUp(id, U(s, id), a), t) == ToVisitor(s, l, t)
  {
    hide View, Chunks, StepEnabled, StepApply, AllEnabled, RunReads, RunWrites;
    ConnQuiet(id, D(s, id), U(s, id), a, t);
    if id == t && a.Read? {
      var st := Local(id, Op.Read(a.data, Chunks(a.data, DATA_CHUNK_MAX)));
      Reads1(st, t);
      Writes1(s.down, st, t);
    } else {
      QuietSteps(s.down, ConnDown(id, D(s, id), a), t);
    }
    if id == t && a.Write? {
      var st := Local(id, Op.Write(a.n));
      Reads1(st, t);
      Writes1(s.up, st, t);
    } else {
      QuietSteps(s.up, ConnUp(id, U(s, id), a), t);
    }
  }

  lemma TaskHistory(s: Tunnel, id: u32, a: TaskStep, t: u32)
    requires AllEnabled(s.down, TaskDown(id, D(s, id), U(s, id), a)) && AllEnabled(s.up, TaskUp(id, U(s, id), a))
    ensures var l := Task(id, a);
            && RunReads(TaskDown(id, D(s, id), U(s, id), a), t) == []
            && RunWrites(s.down, TaskDown(id, D(s, id), U(s, id), a), t) == ToLocal(s, l, t)
            && RunReads(TaskUp(id, U(s, id), a), t) == FromLocal(l, t)
            && RunWrites(s.up, TaskUp(id, U(s, id), a), t) == []
  {
    hide View, Chunks, StepEnabled, StepApply, AllEnabled, RunReads, RunWrites, LocalSteps, MayBuffer;
    TaskQuiet(id, D(s, id), U(s, id), a, t);
    if id == t && a.Output? {
      var st := Local(id, Op.Write(a.n));
      Reads1(st, t);
      Writes1(s.down, st, t);
    } else {
      QuietSteps(s.down, TaskDown(id, D(s, id), U(s, id), a), t);
    }
    if id == t && a.LocalRead? {
      LocalReads(s.up, id, U(s, id), a.data);
    } else if id == t && a.TcpAck? {
      var st := Local(id, Op.Read([], [Lead([])]));
      Reads1(st, t);
      Writes1(s.up, st, t);
    } else {
      QuietSteps(s.up, TaskUp(id, U(s, id), a), t);
    }
  }

  /** One label adds to the histories of a stream exactly what it reads from and writes to that stream's sockets. */
  lemma LabelHistory(s: Tunnel, l: Label, t: u32)
    requires TunnelInv(s) && Guard(s, l) && (l.Accept? || l.DrawId? ==> s.issued < ID_SPACE)
    ensures var s' := Next(s, l);
            && D(s', t).source.read == D(s, t).source.read + FromVisitor(s, l, t)
            && D(s', t).drain.out == D(s, t).drain.out + ToLocal(s, l, t)
            && U(s', t).source.read == U(s, t).source.read + FromLocal(l, t)
            && U(s', t).drain.out == U(s, t).drain.out + ToVisitor(s, l, t)
  {
    hide View, Chunks, StepEnabled, StepApply, AllEnabled, RunReads, RunWrites, LinkInv, Guard, ConnDown, ConnUp, TaskDown, TaskUp, LoopDown, LoopUp, RunSteps, Rejected;
    Ready(s, l);
    RunHistory(s.down, DownSteps(s, l), t);
    RunHistory(s.up, UpSteps(s, l), t);
    match l
    case Accept(kind, head) =>
      var id := NextId(s.issued);
      Reads1(Create(id, StartDown(kind, head)), t);
      Writes1(s.down, Create(id, StartDown(kind, head)), t);
      Reads1(Create(id, StartUp(kind)), t);
      Writes1(s.up, Create(id, StartUp(kind)), t);
    case DrawId =>
      QuietSteps(s.down, DownSteps(s, l), t);
      QuietSteps(s.up, UpSteps(s, l), t);
    case Conn(id, a) => ConnHistory(s, id, a, t);
    case Task(id, a) => TaskHistory(s, id, a, t);
    case Loop(a) =>
      LoopQuiet(s, a, t);
      QuietSteps(s.down, DownSteps(s, l), t);
      QuietSteps(s.up, UpSteps(s, l), t);
  }

  /** Over a whole run the two lanes' histories are what the stream's two sockets saw. */
  lemma {:induction false} SeenIsHistory(s: Tunnel, run: seq<Label>, t: u32)
    requires TunnelInv(s) && Possible(s, run) && After(s, run).issued <= ID_SPACE
    ensures var e := After(s, run); var seen := Seen(s, run, t);
            && D(e, t).source.read == D(s, t).source.read + seen.visitorSent
            && D(e, t).drain.out == D(s, t).drain.out + seen.localGot
            && U(e, t).source.read == U(s, t).source.read + seen.localSent
            && U(e, t).drain.out == U(s, t).drain.out + seen.visitorGot
    decreases |run|
  {
    hide Guard, DownSteps, UpSteps, RunSteps, Rejected, TunnelInv, View, FromVisitor, ToLocal, FromLocal, ToVisitor;
    if run != [] {
      var l := run[0];
      var m := Next(s, l);
      IssuedGrows(m, run[1..]);
      KeepTunnel(s, l);
      LabelHistory(s, l, t);
      SeenIsHistory(m, run[1..], t);
      var rest := Seen(m, run[1..], t);
      Join(D(s, t).source.read, FromVisitor(s, l, t), rest.visitorSent);
      Join(D(s, t).drain.out, ToLocal(s, l, t), rest.localGot);
      Join(U(s, t).source.read, FromLocal(l, t), rest.localSent);
      Join(U(s, t).drain.out, ToVisitor(s, l, t), rest.visitorGot);
    }
  }

  // ---- transparency ----

  lemma Endpoints(run: seq<Label>, id: u32)
    requires Session(run)
    ensures var e := After(INIT, run); var seen := Seen(INIT, run, id);
            && TunnelInv(e) && Inv(D(e, id)) && Inv(U(e, id))
            && D(e, id).source.read == seen.visitorSent && D(e, id).drain.out == seen.localGot
            && U(e, id).source.read == seen.localSent && U(e, id).drain.out == seen.visitorGot
  {
    hide Guard, DownSteps, UpSteps, RunSteps, Rejected, Possible, After, Inv, LinkInv, FromVisitor, ToLocal, FromLocal, ToVisitor;
    SessionInv(run, id);
    InitInv();
    SeenIsHistory(INIT, run, id);
    assert D(INIT, id) == Unused(Down) && U(INIT, id) == Unused(Up);
  }

  /**
   * Visitor to local service, every interleaving of any number of streams: what has been written to stream
   * `id`'s local socket is a prefix of what was read from its visitor; and once the stream task has taken a regular
   * Close off its channel without a failed write, it is all of it.
   */
  lemma VisitorToLocal(run: seq<Label>, id: u32)
    requires Session(run)
    ensures var seen := Seen(INIT, run, id); var d := D(After(INIT, run), id).drain;
            && seen.localGot <= seen.visitorSent
            && (d.fin == Some(CLOSE_OK) && d.ok ==> seen.localGot == seen.visitorSent)
  {
    hide Possible, After, Project, View, Session, TunnelInv, Path, Near, Carry, HasFin, FinLast, LeadCount, LeadFirst, EmptyLeads, Seen;
    Endpoints(run, id);
  }

  /** Local service to visitor: the same, whatever queues fill up and whatever streams are given up. */
  lemma LocalToVisitor(run: seq<Label>, id: u32)
    requires Session(run)
    ensures var seen := Seen(INIT, run, id); var u := U(After(INIT, run), id).drain;
            && seen.visitorGot <= seen.localSent
            && (u.fin == Some(CLOSE_OK) && u.ok ==> seen.visitorGot == seen.localSent)
  {
    hide Possible, After, Project, View, Session, TunnelInv, Path, Near, Carry, HasFin, FinLast, LeadCount, LeadFirst, EmptyLeads, Seen;
    Endpoints(run, id);
  }

  // ---- isolation ----

  predicate Decodes(k: Link, t: u32) {
    k.net != [] && var h := Links.Decode(k.dir, k.net[0]); h.Some? && h.value.id == t
  }

  predicate Holds(k: Link, t: u32) {
    k.held.Some? && k.held.value.id == t
  }

  /** The label is about stream `t`. */
  predicate About(s: Tunnel, l: Label, t: u32) {
    match l
    case Accept(_, _) => NextId(s.issued) == t
    case DrawId => false
    case Conn(id, _) => id == t
    case Task(id, _) => id == t
    case Loop(a) =>
      match a
      case BrokerReceive => Decodes(s.up, t)
      case BrokerDeliver => Holds(s.up, t)
      case BrokerDrop => Holds(s.up, t)
      case BrokerStall => Holds(s.up, t)
      case StallClose => s.stalled == Some(t)
      case ClientReceive(_) => Decodes(s.down, t)
      case ClientDeliver => Holds(s.down, t)
      case ClientDrop => Holds(s.down, t)
      case ClientRefuse => s.refusing == Some(t)
      case _ => false
  }

  /** What a step says about stream `t` before the state is known. */
  predicate Names(st: Step, t: u32) {
    match st
    case Create(id, _) => id == t
    case Local(id, _) => id == t
    case PushFrame(id) => id == t
    case InjectFrame(id, _) => id == t
    case Reserve(_) => false
    case Foreign(_) => false
    case Transmit => false
    case _ => true
  }

  lemma {:induction false} StepsElsewhere(k: Link, steps: seq<Step>, t: u32)
    requires LinkInv(k) && forall st :: st in steps ==> !Names(st, t)
    ensures View(RunSteps(k, steps), t) == View(k, t)
    decreases |steps|
  {
    hide LinkInv, StepEnabled, StepApply, View;
    if steps != [] {
      assert steps[0] in steps;
      if StepEnabled(k, steps[0]) {
        Isolated(k, steps[0], t);
        KeepLink(k, steps[0]);
        StepsElsewhere(StepApply(k, steps[0]), steps[1..], t);
      } else {
        StepsElsewhere(k, steps[1..], t);
      }
    }
  }

  lemma StepElsewhere(k: Link, st: Step, t: u32)
    requires LinkInv(k) && StepEnabled(k, st) && OpFor(k, st, t).None? && !(st.Create? && st.id == t)
    ensures View(RunSteps(k, [st]), t) == View(k, t)
  {
    hide LinkInv, StepEnabled, StepApply, View, OpFor;
    Isolated(k, st, t);
    RunOne(k, st);
  }

  lemma LoopElsewhere(s: Tunnel, a: LoopStep, t: u32)
    requires TunnelInv(s) && LoopGuard(s, a) && !About(s, Loop(a), t)
    ensures View(RunSteps(s.down, LoopDown(s, a)), t) == View(s.down, t)
    ensures View(RunSteps(s.up, LoopUp(s, a)), t) == View(s.up, t)
  {
    hide LinkInv, StepApply, View, RunSteps, Decode, Route, Inv, Fits;
    StepsElsewhere(s.down, [], t);
    StepsElsewhere(s.up, [], t);
    match a
    case BrokerReceive => StepElsewhere(s.up, Receive(true), t);
    case BrokerDeliver => StepElsewhere(s.up, DeliverHeld, t);
    case BrokerDrop => StepElsewhere(s.up, DropHeld, t);
    case BrokerStall => StepElsewhere(s.up, StallHeld, t);
    case StallClose => StepsElsewhere(s.down, LoopDown(s, a), t);
    case ClientReceive(accept) => StepElsewhere(s.down, Receive(accept), t);
    case ClientRefuse => StepsElsewhere(s.up, LoopUp(s, a), t);
    case ClientDeliver => StepElsewhere(s.down, DeliverHeld, t);
    case ClientDrop => StepElsewhere(s.down, DropHeld, t);
    case DownTransmit => StepsElsewhere(s.down, LoopDown(s, a), t);
    case UpTransmit => StepsElsewhere(s.up, LoopUp(s, a), t);
    case DownForeign(m) => StepsElsewhere(s.down, LoopDown(s, a), t);
    case UpForeign(m) => StepsElsewhere(s.up, LoopUp(s, a), t);
    case _ =>
  }

  lemma NamesOne(s: Tunnel, l: Label, t: u32)
    requires (l.Conn? || l.Task?) && l.id != t
    ensures forall st :: st in DownSteps(s, l) || st in UpSteps(s, l) ==> !Names(st, t)
  {
    hide View, Chunks, HeadEnd, EndsAt, StepEnabled;
  }

  /**
   * What a task or a loop does for one stream is invisible to every other: opening, ending or stalling a
   * stream, or giving it up, changes nothing another stream has read, queued, still holds or has written.
   */
  lemma Isolation(s: Tunnel, l: Label, t: u32)
    requires TunnelInv(s) && Guard(s, l) && (l.Accept? || l.DrawId? ==> s.issued < ID_SPACE) && !About(s, l, t)
    ensures D(Next(s, l), t) == D(s, t) && U(Next(s, l), t) == U(s, t)
  {
    hide LinkInv, StepEnabled, StepApply, View, RunSteps, Rejected, ConnGuard, TaskGuard, LoopGuard, ConnDown, ConnUp, TaskDown, TaskUp, LoopDown, LoopUp, Inv, Fits;
    match l
    case Accept(kind, head) =>
      AcceptReady(s, kind, head);
      StepElsewhere(s.down, Create(NextId(s.issued), StartDown(kind, head)), t);
      StepElsewhere(s.up, Create(NextId(s.issued), StartUp(kind)), t);
    case DrawId =>
      StepsElsewhere(s.down, DownSteps(s, l), t);
      StepsElsewhere(s.up, UpSteps(s, l), t);
    case Loop(a) => LoopElsewhere(s, a, t);
    case _ =>
      NamesOne(s, l, t);
      StepsElsewhere(s.down, DownSteps(s, l), t);
      StepsElsewhere(s.up, UpSteps(s, l), t);
  }

  // ---- giving up one stream ----

  lemma {:induction false} RunGivenUp(k: Link, steps: seq<Step>, t: u32, total: seq<byte>)
    requires LinkInv(k) && AllEnabled(k, steps) && t in k.lanes && GivenUp(View(k, t), total)
    ensures GivenUp(View(RunSteps(k, steps), t), total)
    decreases |steps|
  {
    hide LinkInv, StepEnabled, StepApply, View, GivenUp;
    if steps != [] {
      StepGivenUp(k, steps[0], t, total);
      KeepLink(k, steps[0]);
      KeepDir(k, steps[0]);
      assert t in k.lanes.Keys;
      assert t in StepApply(k, steps[0]).lanes.Keys;
      RunGivenUp(StepApply(k, steps[0]), steps[1..], t, total);
    }
  }

  lemma StepGivenUp(k: Link, st: Step, t: u32, total: seq<byte>)
    requires LinkInv(k) && StepEnabled(k, st) && t in k.lanes && GivenUp(View(k, t), total)
    ensures GivenUp(View(StepApply(k, st), t), total)
  {
    hide Project, Decode, Encode, Fits, Apply, Enabled, Route, Good, GivenUp;
    assert Inv(View(k, t));
    if OpFor(k, st, t).Some? {
      Simulates(k, st, t);
      EnabledCreated(View(k, t), OpFor(k, st, t).value);
      GivenUpStays(View(k, t), OpFor(k, st, t).value, total);
    } else {
      Isolated(k, st, t);
    }
  }

  /** When the broker gives a stalled stream up its visitor keeps everything delivered so far. */
  lemma StallAbandons(s: Tunnel, t: u32)
    requires TunnelInv(s) && Guard(s, Loop(BrokerStall)) && Holds(s.up, t) && Feeding(U(s, t))
    ensures GivenUp(U(Next(s, Loop(BrokerStall)), t), U(s, t).drain.out + U(s, t).drain.cur + Carry(U(s, t).drain.chan))
    ensures Next(s, Loop(BrokerStall)).stalled == Some(t)
  {
    hide Project, Decode, Encode, Fits, Apply, Enabled, Route, Good, GivenUp, Carry;
    assert Inv(View(s.up, t));
    Simulates(s.up, StallHeld, t);
    EnabledCreated(View(s.up, t), Stall);
    StallGivesUp(View(s.up, t));
    RunOne(s.up, StallHeld);
  }

  /** From then on nothing can reach it but those bytes, in order, whatever else the session does. */
  lemma {:induction false} AbandonedForGood(s: Tunnel, run: seq<Label>, t: u32, total: seq<byte>)
    requires TunnelInv(s) && Possible(s, run) && After(s, run).issued <= ID_SPACE
    requires t in s.up.lanes && GivenUp(U(s, t), total)
    ensures GivenUp(U(After(s, run), t), total) && U(After(s, run), t).drain.out <= total
    decreases |run|
  {
    hide Guard, DownSteps, UpSteps, RunSteps, Rejected, TunnelInv, View, AllEnabled;
    if run != [] {
      var m := Next(s, run[0]);
      IssuedGrows(m, run[1..]);
      KeepTunnel(s, run[0]);
      Ready(s, run[0]);
      StaysEntered(s, run[0], t);
      RunGivenUp(s.up, UpSteps(s, run[0]), t, total) by {
        Both(s);
      }
      AbandonedForGood(m, run[1..], t, total);
    }
  }

  lemma Both(s: Tunnel)
    requires TunnelInv(s)
    ensures LinkInv(s.up) && LinkInv(s.down)
  {
  }

  lemma StaysEntered(s: Tunnel, l: Label, t: u32)
    requires TunnelInv(s) && Guard(s, l) && t in s.up.lanes
    ensures t in Next(s, l).up.lanes
  {
    hide Guard, DownSteps, UpSteps, Rejected, LinkInv;
    KeysGrow(s.up, UpSteps(s, l), t);
  }

  lemma {:induction false} KeysGrow(k: Link, steps: seq<Step>, t: u32)
    requires LinkInv(k) && t in k.lanes
    ensures t in RunSteps(k, steps).lanes
    decreases |steps|
  {
    hide LinkInv, StepEnabled, StepApply;
    if steps != [] {
      if StepEnabled(k, steps[0]) {
        KeepLink(k, steps[0]);
        KeepDir(k, steps[0]);
        assert t in k.lanes.Keys;
        assert t in StepApply(k, steps[0]).lanes.Keys;
        KeysGrow(StepApply(k, steps[0]), steps[1..], t);
      } else {
        KeysGrow(k, steps[1..], t);
      }
    }
  }

  // ---- stream ids ----

  /** Two draws give the same id exactly when a multiple of 2^32 lies between them. */
  lemma IdsRepeat(i: nat, j: nat)
    requires i <= j
    ensures NextId(i) == NextId(j) <==> (j - i) % ID_SPACE == 0
  {
    assert (j + 1) - (i + 1) == j - i;
  }

  predicate AllDistinct(n: nat) {
    forall i, j :: 0 <= i < j < n ==> NextId(i) != NextId(j)
  }

  /** A session's ids are all different exactly as long as it draws at most 2^32 of them. */
  lemma DistinctIff(n: nat)
    ensures AllDistinct(n) <==> n <= ID_SPACE
  {
    if n <= ID_SPACE {
      forall i, j | 0 <= i < j < n
        ensures NextId(i) != NextId(j)
      {
        IdsRepeat(i, j);
      }
    } else {
      IdsRepeat(0, ID_SPACE);
      assert NextId(0) == NextId(ID_SPACE);
    }
  }

  // ---- every byte is accounted for ----

  /**
   * While nothing has been thrown away, what one socket sent is what the other got, then what is being written,
   * then what is on its way, then what the handshake keeps back. An HTTP request, which the broker never ends
   * with a Close, is complete at the local service as soon as nothing is left in between.
   */
  lemma Accounted(run: seq<Label>, id: u32)
    requires Session(run)
    ensures var seen := Seen(INIT, run, id); var d := D(After(INIT, run), id); var u := U(After(INIT, run), id);
            && (Intact(d) ==> seen.visitorSent == seen.localGot + d.drain.cur + Carry(Path(d)))
            && (Intact(u) ==> seen.localSent == seen.visitorGot + u.drain.cur + Carry(Path(u)) + u.source.uncut)
            && (Intact(d) && d.drain.cur == [] && Path(d) == [] ==> seen.localGot == seen.visitorSent)
            && (Intact(u) && u.drain.cur == [] && Path(u) == [] && u.source.uncut == [] ==> seen.visitorGot == seen.localSent)
  {
    hide Possible, After, Project, View, Path, Near, Carry, HasFin, FinLast, LeadCount, LeadFirst, EmptyLeads, Seen, LinkInv, Wf;
    Endpoints(run, id);
    NoItems();
    Directions(After(INIT, run), id);
  }

  lemma NoItems()
    ensures Carry([]) == []
  {
  }

  lemma Directions(s: Tunnel, id: u32)
    requires TunnelInv(s)
    ensures D(s, id).created ==> D(s, id).dir.Down?
    ensures U(s, id).created ==> U(s, id).dir.Up?
  {
    hide Project, Inv;
  }

  // ---- the codes of all ends ----

  predicate UsualStep(st: Step) {
    match st
    case Local(_, op) => UsualOp(op)
    case InjectFrame(_, item) => UsualCode(item)
    case Create(_, lane) => UsualLane(lane)
    case _ => true
  }

  lemma StepUsual(k: Link, st: Step, t: u32)
    requires LinkInv(k) && StepEnabled(k, st) && UsualStep(st) && UsualLane(View(k, t))
    ensures UsualLane(View(StepApply(k, st), t))
  {
    hide Project, Decode, Encode, Fits, Apply, Enabled, Route, Good, UsualLane;
    assert Inv(View(k, t));
    if st.Create? && st.id == t {
      assert View(StepApply(k, st), t) == st.lane by {
        KeepWf(k, st);
      }
    } else if OpFor(k, st, t).Some? {
      Simulates(k, st, t);
      KeepUsual(View(k, t), OpFor(k, st, t).value);
    } else {
      Isolated(k, st, t);
    }
  }

  lemma {:induction false} StepsUsual(k: Link, steps: seq<Step>, t: u32)
    requires LinkInv(k) && UsualLane(View(k, t)) && forall st :: st in steps ==> UsualStep(st)
    ensures UsualLane(View(RunSteps(k, steps), t))
    decreases |steps|
  {
    hide LinkInv, StepEnabled, StepApply, View, UsualLane, UsualStep;
    if steps != [] {
      assert steps[0] in steps;
      if StepEnabled(k, steps[0]) {
        StepUsual(k, steps[0], t);
        KeepLink(k, steps[0]);
        StepsUsual(StepApply(k, steps[0]), steps[1..], t);
      } else {
        StepsUsual(k, steps[1..], t);
      }
    }
  }

  /** The only ends any task sends are regular or application errors. */
  lemma LabelUsual(s: Tunnel, l: Label)
    requires Guard(s, l)
    ensures forall st :: st in DownSteps(s, l) || st in UpSteps(s, l) ==> UsualStep(st)
  {
    hide View, ConnDown, ConnUp, TaskDown, TaskUp, LoopDown, LoopUp, ConnGuard, TaskGuard, LoopGuard, Fits;
    match l
    case Accept(kind, head) =>
      assert Path(StartDown(kind, head)) == [Lead(head)] && Path(StartUp(kind)) == [];
    case DrawId =>
    case Conn(id, a) => ConnUsual(id, D(s, id), U(s, id), a);
    case Task(id, a) => TaskUsual(id, D(s, id), U(s, id), Room(s.up), a);
    case Loop(a) => LoopUsual(s, a);
  }

  lemma ConnUsual(id: u32, d: Lane, u: Lane, a: ConnStep)
    ensures forall st :: st in ConnDown(id, d, a) || st in ConnUp(id, u, a) ==> UsualStep(st)
  {
    hide View, Chunks;
  }

  lemma TaskUsual(id: u32, d: Lane, u: Lane, room: bool, a: TaskStep)
    requires TaskGuard(d, u, room, a)
    ensures forall st :: st in TaskDown(id, d, u, a) || st in TaskUp(id, u, a) ==> UsualStep(st)
  {
    hide View, Chunks, HeadEnd, EndsAt;
  }

  lemma LoopUsual(s: Tunnel, a: LoopStep)
    ensures forall st :: st in LoopDown(s, a) || st in LoopUp(s, a) ==> UsualStep(st)
  {
    hide View;
  }

  lemma {:induction false} RunUsual(s: Tunnel, run: seq<Label>, t: u32)
    requires TunnelInv(s) && Possible(s, run) && After(s, run).issued <= ID_SPACE
    requires UsualLane(D(s, t)) && UsualLane(U(s, t))
    ensures UsualLane(D(After(s, run), t)) && UsualLane(U(After(s, run), t))
    decreases |run|
  {
    hide Guard, DownSteps, UpSteps, RunSteps, Rejected, TunnelInv, View, UsualLane, UsualStep;
    if run != [] {
      var m := Next(s, run[0]);
      IssuedGrows(m, run[1..]);
      KeepTunnel(s, run[0]);
      Both(s);
      LabelUsual(s, run[0]);
      StepsUsual(s.down, DownSteps(s, run[0]), t);
      StepsUsual(s.up, UpSteps(s, run[0]), t);
      RunUsual(m, run[1..], t);
    }
  }

  /** In every run a stream ends with code 0 or 1, in either direction. */
  lemma UsualEnds(run: seq<Label>, id: u32)
    requires Session(run)
    ensures var e := After(INIT, run);
            && (D(e, id).drain.fin.Some? ==> D(e, id).drain.fin.value in {CLOSE_OK, CLOSE_APP_ERROR})
            && (U(e, id).drain.fin.Some? ==> U(e, id).drain.fin.value in {CLOSE_OK, CLOSE_APP_ERROR})
  {
    hide Possible, After, Project;
    InitInv();
    assert D(INIT, id) == Unused(Down) && U(INIT, id) == Unused(Up);
    RunUsual(INIT, run, id);
  }

  // ---- bounded queues ----

  lemma {:induction false} StepsBounded(k: Link, steps: seq<Step>)
    requires LinkInv(k) && Bounded(k) && Addressed(k)
    ensures Bounded(RunSteps(k, steps)) && Addressed(RunSteps(k, steps))
    decreases |steps|
  {
    hide LinkInv, StepEnabled, StepApply, Bounded, Addressed;
    if steps != [] {
      if StepEnabled(k, steps[0]) {
        Shaped(k);
        KeepBounded(k, steps[0]);
        KeepAddressed(k, steps[0]);
        KeepLink(k, steps[0]);
        StepsBounded(StepApply(k, steps[0]), steps[1..]);
      } else {
        StepsBounded(k, steps[1..]);
      }
    }
  }

  lemma Shaped(k: Link)
    requires LinkInv(k)
    ensures Wf(k)
  {
  }

  lemma {:induction false} RunBounded(s: Tunnel, run: seq<Label>)
    requires TunnelInv(s) && Possible(s, run) && After(s, run).issued <= ID_SPACE
    requires Bounded(s.down) && Bounded(s.up) && Addressed(s.down) && Addressed(s.up)
    ensures var e := After(s, run); Bounded(e.down) && Bounded(e.up) && Addressed(e.down) && Addressed(e.up)
    decreases |run|
  {
    hide Guard, DownSteps, UpSteps, RunSteps, Rejected, TunnelInv, Bounded, Addressed;
    if run != [] {
      var m := Next(s, run[0]);
      IssuedGrows(m, run[1..]);
      KeepTunnel(s, run[0]);
      Both(s);
      StepsBounded(s.down, DownSteps(s, run[0]));
      StepsBounded(s.up, UpSteps(s, run[0]));
      RunBounded(m, run[1..]);
    }
  }

  /** Memory in flight is bounded in every run: 16 and 64 messages in the shared queues, 64 and 8 in a stream's. */
  lemma QueuesBounded(run: seq<Label>, id: u32)
    requires Session(run)
    ensures var e := After(INIT, run);
            && |e.down.queue| <= 16 && |e.up.queue| <= 64
            && |D(e, id).drain.chan| <= 64 && |U(e, id).drain.chan| <= 8
  {
    hide Possible, After, Project;
    InitInv();
    RunBounded(INIT, run);
    SessionInv(run, id);
  }

  /** In every run a frame on its way is for a stream the session knows or for a flow of another kind. */
  lemma FramesAddressed(run: seq<Label>)
    requires Session(run)
    ensures var e := After(INIT, run); Addressed(e.down) && Addressed(e.up)
  {
    hide Possible, After, Project;
    InitInv();
    RunBounded(INIT, run);
  }

  // ---- the handshake of a stream task is the splitter ----

  /** What one read does to the handshake: wait, answer, or refuse. */
  predicate HandshakeStep(id: u32, u: Lane, data: seq<byte>, later: seq<seq<byte>>) {
    var buf := u.source.uncut;
    var steps := LocalSteps(id, u, data);
    var o := HttpHead.Split(CLIENT, buf, [data] + later);
    if steps == [Local(id, Op.Read(data, []))] then o == Later(HttpHead.Split(CLIENT, buf + data, later))
    else if |steps| == 2 then o.Refuse? && steps[1] == Local(id, Finish([Reject, Reject]))
    else
      && o.Ack? && o.used == 1 && o.head + o.rest == buf + data
      && steps == [Local(id, Op.Read(data, [Lead(o.head)] + Chunks(o.rest, Frames.MAX_FRAME_PAYLOAD)))]
  }

  /** Read by read a stream task splits the response exactly as `HttpHead.Split` does. */
  lemma TaskSplits(id: u32, u: Lane, data: seq<byte>, later: seq<seq<byte>>)
    requires MayBuffer(u)
    ensures HandshakeStep(id, u, data, later)
  {
    hide HeadEnd, EndsAt, Chunks;
    var pieces := [data] + later;
    assert pieces[0] == data && pieces[1..] == later;
    var buf := u.source.uncut + data;
    if HeadEnd(buf).Some? {
      EndsWithin(buf, HeadEnd(buf).value);
      var end := HeadEnd(buf).value;
      assert buf[..end] + buf[end..] == buf;
      assert [Lead(buf[..end])] + Chunks(buf[end..], Frames.MAX_FRAME_PAYLOAD) != [];
    }
  }
}
