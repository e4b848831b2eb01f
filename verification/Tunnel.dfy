/**
 * A whole session: the broker's and the client's tasks for any number of streams, the two shared queues and
 * the two receiving loops. One label is what one task does between two of its suspension points; labels of
 * different tasks interleave freely.
 */
module Tunnel {
  import opened Bytes
  import opened Items
  import opened Lanes
  import opened Links
  import opened HttpHead
  import Frames
  import OpenMetas

  const DATA_CHUNK_MAX: nat := 256 * 1024
  const ID_SPACE: nat := 0x1_0000_0000

  datatype Tunnel = Tunnel(
    issued: nat,             // how often a stream id has been drawn
    down: Link,              // broker to client
    up: Link,                // client to broker
    refusing: Option<u32>,   // the client's loop is queueing an OpenReject for this stream
    stalled: Option<u32>     // the broker's loop is queueing a Close for a stream it has given up on
  )

  /** What a visitor's connection on the broker does: its reader, its writer, and how they wind up. */
  datatype ConnStep =
    | Read(data: seq<byte>)
    | Eof
    | Lost
    | Push
    | Take
    | Write(n: nat)
    | WriteFail
    | Stop
    | Upgrade
    | UpgradeEnd
    | Tell
    | Refuse
    | Hangup
    | Leave
    | Detach   // the handler is dropped, and what it has spawned goes on
    | Clear

  /** What a stream task on the client does. */
  datatype TaskStep =
    | DialFail
    | TcpAck
    | LocalRead(data: seq<byte>)
    | LocalEnd(code: byte)
    | ShakeFail(twice: bool)
    | AckTimeout
    | Queue
    | Fetch
    | Output(n: nat)
    | OutputFail
    | Quit
    | Detach   // the task is aborted, and the reader it has spawned goes on
    | Fade     // such a reader ends
    | Drop

  /** What the two receiving loops and the two writers do, and whatever else shares the queues. */
  datatype LoopStep =
    | BrokerReceive
    | BrokerDeliver
    | BrokerDrop
    | BrokerStall
    | StallClose
    | StallGiveUp
    | ClientReceive(accept: bool)
    | ClientRefuse
    | ClientDeliver
    | ClientDrop
    | DownTransmit
    | UpTransmit
    | DownForeign(m: Message)
    | UpForeign(m: Message)

  datatype Label =
    | Accept(kind: OpenMetas.StreamKind, head: seq<byte>)
    | DrawId
    | Conn(id: u32, conn: ConnStep)
    | Task(id: u32, task: TaskStep)
    | Loop(loop: LoopStep)

  const INIT: Tunnel :=
    Tunnel(0, Link(Down, [], [], None, map[], {}), Link(Up, [], [], None, map[], {}), None, None)

  /** `next_stream_id`: fetch_add on a 32-bit counter, plus one. */
  function NextId(issued: nat): u32 {
    (issued + 1) % ID_SPACE
  }

  /** Stream `id` on its way to the local service, and back to the visitor. */
  function D(s: Tunnel, id: u32): Lane {
    View(s.down, id)
  }

  function U(s: Tunnel, id: u32): Lane {
    View(s.up, id)
  }

  // ---- a visitor's connection ----

  /** Whether the connection's tasks can take a step: `d` and `u` are its two lanes. */
  predicate ConnGuard(d: Lane, u: Lane, room: bool, a: ConnStep) {
    match a
    case Read(data) =>
      !d.source.ended && d.source.pend == [] && 0 < |data| && (d.kind.Http? || |data| <= DATA_CHUNK_MAX)
    case Eof => !d.source.ended && d.source.pend == []
    case Lost => true
    case Push => d.source.pend != [] && room
    case Take => Enabled(u, Op.Take)
    case Write(n) => u.drain.sink.Running? && 0 < n <= |u.drain.cur| && (u.kind.Http? ==> n == |u.drain.cur|)
    case WriteFail => !u.kind.Http? && u.drain.sink.Running? && u.drain.cur != []
    case Stop =>
      !u.drain.sink.Stopped? &&
      ((u.kind.Http? && u.drain.cur != []) || (!u.drain.entry.Live? && u.drain.chan == [] && u.hold == []))
    case Upgrade => u.kind.Http? && u.drain.sink.Running? && u.drain.cur == []
    case UpgradeEnd =>
      u.kind.Http? && !u.drain.rx && d.source.ended && d.source.pend == [] && !d.source.lost
    case Tell => u.kind.Http? && u.drain.rx && room
    case Refuse => u.kind.Http? && u.drain.rx
    case Hangup => u.kind.Http? && u.drain.sink.Stopped?
    case Leave => u.drain.sink.Stopped? && (u.kind.Http? ==> d.source.ended)
    case Detach => u.drain.rx
    case Clear => u.drain.entry.Live?
  }

  function ConnDown(id: u32, d: Lane, a: ConnStep): seq<Step> {
    match a
    case Read(data) => [Local(id, Op.Read(data, Chunks(data, DATA_CHUNK_MAX)))]
    case Eof => [Local(id, Finish(if d.kind.Http? then [] else [End(CLOSE_OK)]))]
    case Lost => [Local(id, Abort)]
    case Push => [PushFrame(id)]
    case UpgradeEnd => [Local(id, Finish([End(CLOSE_OK)]))]
    case Tell => [InjectFrame(id, End(CLOSE_APP_ERROR))]
    case Refuse => [Local(id, Abort)]
    case Leave => [Local(id, Abort)]
    case _ => []
  }

  function ConnUp(id: u32, u: Lane, a: ConnStep): seq<Step> {
    match a
    case Take => [Local(id, Op.Take)]
    case Write(n) => [Local(id, Op.Write(n))]
    case WriteFail => [Local(id, Op.WriteFail(false))]
    case Stop => [Local(id, Op.Stop)]
    case Upgrade => [Local(id, Op.Stop), Local(id, CloseRx)]
    case Refuse => (if u.drain.sink.Stopped? then [] else [Local(id, Op.Stop)]) + Unenter(id, u) + [Local(id, CloseRx)]
    case Hangup => [Local(id, CloseRx)]
    case Detach => [Local(id, CloseRx)]
    case Leave => Unenter(id, u) + [Local(id, CloseRx)]
    case Clear => [Local(id, Op.Clear)]
    case _ => []
  }

  function Unenter(id: u32, l: Lane): seq<Step> {
    if l.drain.entry.Live? then [Local(id, Op.Clear)] else []
  }

  // ---- a stream task on the client ----

  /** The client has a task for the stream. */
  predicate HasTask(d: Lane) {
    d.drain.rx && !d.drain.sink.AwaitLead?
  }

  /** It has nothing of its own waiting for the queue and nothing half written. */
  predicate Free(d: Lane, u: Lane) {
    u.source.pend == [] && !u.source.ended && (u.kind.Http? ==> d.drain.cur == [])
  }

  /** Somebody reads the local socket: the task itself, or the reader of a TCP stream, which outlives an aborted task. */
  predicate Reading(d: Lane, u: Lane) {
    HasTask(d) || (!u.kind.Http? && !d.drain.rx)
  }

  predicate TaskGuard(d: Lane, u: Lane, room: bool, a: TaskStep) {
    match a
    case DialFail => HasTask(d) && u.source.pend == [] && !u.source.ended && !u.source.led && u.source.read == []
    case TcpAck => HasTask(d) && Free(d, u) && !u.kind.Http? && !u.source.led
    case LocalRead(data) =>
      Reading(d, u) && Free(d, u) && (u.source.led || u.kind.Http?) &&
      0 < |data| <= (if MayBuffer(u) then CLIENT.maxRead else Frames.MAX_FRAME_PAYLOAD)
    case LocalEnd(code) => Reading(d, u) && Free(d, u) && u.source.led && (code == CLOSE_OK || code == CLOSE_APP_ERROR)
    case ShakeFail(_) => HasTask(d) && !u.source.ended && u.source.pend == [] && MayBuffer(u)
    case AckTimeout => HasTask(d) && u.kind.Http? && u.source.pend != []
    case Queue => u.source.pend != [] && room
    case Fetch => Enabled(d, Op.Take) && (u.kind.Http? ==> Free(d, u))
    case Output(n) => d.drain.sink.Running? && 0 < n <= |d.drain.cur|
    case OutputFail => d.drain.sink.Running? && d.drain.cur != [] && (u.kind.Http? || room)
    case Quit => HasTask(d)
    case Detach => HasTask(d) && !u.kind.Http?
    case Fade => !u.kind.Http? && !d.drain.rx
    case Drop => d.drain.entry.Live?
  }

  function TaskDown(id: u32, d: Lane, u: Lane, a: TaskStep): seq<Step> {
    match a
    case Fetch => [Local(id, Op.Take)]
    case Output(n) => [Local(id, Op.Write(n))]
    case OutputFail => [Local(id, Op.WriteFail(!MayBuffer(u)))]
    case Quit => Unenter(id, d) + [Local(id, CloseRx)]
    case Detach => Unenter(id, d) + [Local(id, CloseRx)]
    case Drop => [Local(id, Op.Clear)]
    case _ => []
  }

  function TaskUp(id: u32, u: Lane, a: TaskStep): seq<Step> {
    match a
    case DialFail => [Local(id, Finish([Reject]))]
    case TcpAck => [Local(id, Op.Read([], [Lead([])]))]
    case LocalRead(data) => LocalSteps(id, u, data)
    case LocalEnd(code) => [Local(id, Finish([End(code)]))]
    case ShakeFail(twice) => [Local(id, Finish(if twice then [Reject, Reject] else [Reject]))]
    case AckTimeout => [Local(id, Abort), Local(id, Finish([Reject]))]
    case Queue => [PushFrame(id)]
    case OutputFail => if u.kind.Http? then [] else [InjectFrame(id, End(CLOSE_APP_ERROR))]
    case Quit => [Local(id, Abort)]
    case Fade => [Local(id, Abort)]
    case _ => []
  }

  /** The frames the client cuts when its local socket delivers `data`. */
  function LocalSteps(id: u32, u: Lane, data: seq<byte>): seq<Step> {
    if !MayBuffer(u) then [Local(id, Op.Read(data, Chunks(data, Frames.MAX_FRAME_PAYLOAD)))] else
    var buf := u.source.uncut + data;
    var reject := [Local(id, Op.Read(data, [])), Local(id, Finish([Reject, Reject]))];
    if |buf| > HEAD_LIMIT then reject else
    match HeadEnd(buf)
    case None => [Local(id, Op.Read(data, []))]
    case Some(end) =>
      if LooksRight(CLIENT, buf) then
        [Local(id, Op.Read(data, [Lead(buf[..end])] + Chunks(buf[end..], Frames.MAX_FRAME_PAYLOAD)))]
      else reject
  }

  // ---- the loops ----

  predicate LoopGuard(s: Tunnel, a: LoopStep) {
    match a
    case BrokerReceive => s.stalled.None? && StepEnabled(s.up, Receive(true))
    case BrokerDeliver => StepEnabled(s.up, DeliverHeld)
    case BrokerDrop => StepEnabled(s.up, DropHeld)
    case BrokerStall => StepEnabled(s.up, StallHeld)
    case StallClose => s.stalled.Some? && s.stalled.value in s.down.lanes && Room(s.down)
    case StallGiveUp => s.stalled.Some?
    case ClientReceive(_) => s.refusing.None? && StepEnabled(s.down, Receive(true))
    case ClientRefuse => s.refusing.Some? && s.refusing.value in s.up.lanes && Room(s.up)
    case ClientDeliver => StepEnabled(s.down, DeliverHeld)
    case ClientDrop => StepEnabled(s.down, DropHeld)
    case DownTransmit => s.down.queue != []
    case UpTransmit => s.up.queue != []
    case DownForeign(m) => Elsewhere(s.down, m) && Room(s.down)
    case UpForeign(m) => Elsewhere(s.up, m) && Room(s.up)
  }

  function LoopDown(s: Tunnel, a: LoopStep): seq<Step> {
    match a
    case StallClose => if s.stalled.Some? then [InjectFrame(s.stalled.value, End(CLOSE_APP_ERROR))] else []
    case ClientReceive(accept) => [Receive(accept)]
    case ClientDeliver => [DeliverHeld]
    case ClientDrop => [DropHeld]
    case DownTransmit => [Transmit]
    case DownForeign(m) => [Foreign(m)]
    case _ => []
  }

  function LoopUp(s: Tunnel, a: LoopStep): seq<Step> {
    match a
    case BrokerReceive => [Receive(true)]
    case BrokerDeliver => [DeliverHeld]
    case BrokerDrop => [DropHeld]
    case BrokerStall => [StallHeld]
    case ClientRefuse => if s.refusing.Some? then [InjectFrame(s.refusing.value, Reject)] else []
    case UpTransmit => [Transmit]
    case UpForeign(m) => [Foreign(m)]
    case _ => []
  }

  predicate Room(k: Link) {
    |k.queue| < QueueCap(k.dir)
  }

  // ---- the session ----

  predicate Guard(s: Tunnel, l: Label) {
    match l
    case Accept(kind, head) => !kind.Udp? && Fits(Down, kind, Lead(head))
    case DrawId => true
    case Conn(id, a) => id in s.up.lanes && ConnGuard(D(s, id), U(s, id), Room(s.down), a)
    case Task(id, a) => id in s.up.lanes && TaskGuard(D(s, id), U(s, id), Room(s.up), a)
    case Loop(a) => LoopGuard(s, a)
  }

  function DownSteps(s: Tunnel, l: Label): seq<Step> {
    match l
    case Accept(kind, head) => [Create(NextId(s.issued), StartDown(kind, head))]
    case DrawId => [Reserve(NextId(s.issued))]
    case Conn(id, a) => ConnDown(id, D(s, id), a)
    case Task(id, a) => TaskDown(id, D(s, id), U(s, id), a)
    case Loop(a) => LoopDown(s, a)
  }

  function UpSteps(s: Tunnel, l: Label): seq<Step> {
    match l
    case Accept(kind, head) => [Create(NextId(s.issued), StartUp(kind))]
    case DrawId => [Reserve(NextId(s.issued))]
    case Conn(id, a) => ConnUp(id, U(s, id), a)
    case Task(id, a) => TaskUp(id, U(s, id), a)
    case Loop(a) => LoopUp(s, a)
  }

  /** Steps one after the other; one that is not possible changes nothing (`Ready` shows there is none). */
  function RunSteps(k: Link, steps: seq<Step>): Link
    decreases |steps|
  {
    if steps == [] then k
    else RunSteps(if StepEnabled(k, steps[0]) then StepApply(k, steps[0]) else k, steps[1..])
  }

  predicate AllEnabled(k: Link, steps: seq<Step>)
    decreases |steps|
  {
    steps == [] || (StepEnabled(k, steps[0]) && AllEnabled(StepApply(k, steps[0]), steps[1..]))
  }

  function Next(s: Tunnel, l: Label): Tunnel
    requires Guard(s, l)
  {
    Tunnel(
      if l.Accept? || l.DrawId? then s.issued + 1 else s.issued,
      RunSteps(s.down, DownSteps(s, l)),
      RunSteps(s.up, UpSteps(s, l)),
      if l.Loop? && l.loop.ClientReceive? then Rejected(s.down, l.loop.accept)
      else if l.Loop? && l.loop.ClientRefuse? then None
      else s.refusing,
      if l.Loop? && l.loop.BrokerStall? then (if s.up.held.Some? then Some(s.up.held.value.id) else None)
      else if l.Loop? && (l.loop.StallClose? || l.loop.StallGiveUp?) then None
      else s.stalled)
  }

  /** An Open frame the client has no target for is answered with an OpenReject. */
  function Rejected(k: Link, accept: bool): Option<u32> {
    if k.net == [] then None else
    var h := Links.Decode(k.dir, k.net[0]);
    if h.Some? && h.value.item.Lead? && !accept && h.value.id in k.lanes && !k.lanes[h.value.id].drain.entry.Live?
    then Some(h.value.id) else None
  }

  // ---- the invariant of a session ----

  /** Ids are drawn as 1, 2, …, 2^32 - 1, 0: how many draws it took to get this one. */
  function Draw(id: u32): nat {
    if id == 0 then ID_SPACE else id
  }

  ghost predicate TunnelInv(s: Tunnel) {
    && s.down.dir.Down? && s.up.dir.Up? && s.down.lanes.Keys == s.up.lanes.Keys
    && LinkInv(s.down) && LinkInv(s.up)
    && s.down.others == s.up.others
    && forall id :: id in s.down.lanes || id in s.down.others ==> Draw(id) <= s.issued
  }

  lemma Starts(kind: OpenMetas.StreamKind, head: seq<byte>)
    requires !kind.Udp? && Fits(Down, kind, Lead(head))
    ensures Inv(StartDown(kind, head)) && Inv(StartUp(kind))
  {
    One(Lead(head));
    Nil();
    var d := StartDown(kind, head);
    assert Path(d) == [Lead(head)] && Near(d) == [];
    assert [Lead(head)][1..] == [];
    assert Path(StartUp(kind)) == [] && Near(StartUp(kind)) == [];
  }

  /** What the guards rely on, one stream at a time. */
  lemma Standing(s: Tunnel, id: u32)
    requires TunnelInv(s) && id in s.up.lanes
    ensures id in s.down.lanes && Good(D(s, id)) && Good(U(s, id)) && D(s, id).dir.Down? && U(s, id).dir.Up?
  {
    hide Project, Good, Inv;
    assert id in s.up.lanes.Keys;
    assert Inv(View(s.down, id)) && Inv(View(s.up, id));
    Created(View(s.down, id));
    Created(View(s.up, id));
  }

  lemma Created(l: Lane)
    requires Inv(l) && l.created
    ensures Good(l)
  {
    hide Good;
  }

  /** The reading end of a request lane. */
  lemma DownFacts(d: Lane)
    requires Good(d) && d.dir.Down?
    ensures d.created && d.source.uncut == [] && d.source.led && (!d.source.ended ==> !d.source.lost)
    ensures HasTask(d) ==> !d.drain.entry.Waiting?
  {
    hide FinInv;
  }

  lemma UpFacts(u: Lane)
    requires Good(u) && u.dir.Up?
    ensures u.created && (u.source.uncut != [] ==> MayBuffer(u)) && (!u.source.ended ==> !u.source.lost)
    ensures !u.drain.entry.Waiting?
  {
    hide FinInv;
  }

  lemma Single(k: Link, st: Step)
    requires StepEnabled(k, st)
    ensures AllEnabled(k, [st])
  {
    hide StepEnabled, StepApply;
    assert [st][1..] == [];
  }

  lemma Double(k: Link, a: Step, b: Step)
    requires StepEnabled(k, a) && StepEnabled(StepApply(k, a), b)
    ensures AllEnabled(k, [a, b])
  {
    hide StepEnabled, StepApply;
    assert [a, b][1..] == [b];
    Single(StepApply(k, a), b);
  }

  // ---- no label ever skips a step ----

  lemma AfterLocal(k: Link, id: u32, op: Op)
    requires Wf(k) && StepEnabled(k, Local(id, op))
    ensures var k' := StepApply(k, Local(id, op));
            Wf(k') && id in k'.lanes && View(k', id) == Apply(View(k, id), op) && View(k', id).kind == View(k, id).kind
  {
    hide Project, Enabled, Apply, Fits;
    KeepWf(k, Local(id, op));
    SimLocal(k, id, op, id);
    LocalFrame(View(k, id), op);
  }

  lemma TwoLocals(k: Link, id: u32, a: Op, b: Op)
    requires Wf(k) && StepEnabled(k, Local(id, a)) && IsLocal(b) && Enabled(Apply(View(k, id), a), b)
    requires b.Read? || b.Finish? ==> AllFit(k.dir, View(k, id).kind, b.items)
    ensures AllEnabled(k, [Local(id, a), Local(id, b)])
  {
    hide Project, Enabled, Apply, Fits;
    AfterLocal(k, id, a);
    KeepWf(k, Local(id, a));
    Double(k, Local(id, a), Local(id, b));
  }

  /** Small junk and end frames always fit. */
  lemma ShortFits(d: Dir, kind: OpenMetas.StreamKind, items: seq<Item>)
    requires forall i :: i in items ==> i.Reject? || i.End? || i == Lead([])
    ensures AllFit(d, kind, items)
  {
  }

  lemma ReadyLocal(k: Link, id: u32, op: Op)
    requires Wf(k) && id in k.lanes && IsLocal(op) && Enabled(View(k, id), op)
    requires op.Read? || op.Finish? ==> AllFit(k.dir, View(k, id).kind, op.items)
    ensures StepEnabled(k, Local(id, op)) && AllEnabled(k, [Local(id, op)])
  {
    hide Project, Enabled, Fits, StepApply;
    Single(k, Local(id, op));
  }

  lemma Nothing(k: Link)
    ensures AllEnabled(k, [])
  {
  }

  lemma AcceptReady(s: Tunnel, kind: OpenMetas.StreamKind, head: seq<byte>)
    requires TunnelInv(s) && Guard(s, Accept(kind, head)) && s.issued < ID_SPACE
    ensures StepEnabled(s.down, Create(NextId(s.issued), StartDown(kind, head)))
    ensures StepEnabled(s.up, Create(NextId(s.issued), StartUp(kind)))
  {
    hide Inv;
    Starts(kind, head);
    var id := NextId(s.issued);
    assert Draw(id) == s.issued + 1;
    assert id !in s.down.lanes && id !in s.up.lanes.Keys && id !in s.down.others;
  }

  lemma DrawReady(s: Tunnel)
    requires TunnelInv(s) && s.issued < ID_SPACE
    ensures StepEnabled(s.down, Reserve(NextId(s.issued))) && StepEnabled(s.up, Reserve(NextId(s.issued)))
  {
    hide Inv;
    var id := NextId(s.issued);
    assert Draw(id) == s.issued + 1;
    assert id !in s.down.lanes && id !in s.up.lanes.Keys;
  }

  lemma ReadyPush(k: Link, id: u32)
    requires Wf(k) && id in k.lanes && View(k, id).source.pend != [] && Room(k)
    ensures AllEnabled(k, [PushFrame(id)])
  {
    hide Project, Fits, StepApply;
    assert k.lanes[id].source.pend[0] in k.lanes[id].source.pend;
    Single(k, PushFrame(id));
  }

  lemma ReadyInject(k: Link, id: u32, item: Item)
    requires Wf(k) && id in k.lanes && IsJunk(item) && Room(k)
    ensures AllEnabled(k, [InjectFrame(id, item)])
  {
    hide StepApply;
    Single(k, InjectFrame(id, item));
  }

  lemma ReadyReceive(k: Link, accept: bool)
    requires StepEnabled(k, Receive(true))
    ensures AllEnabled(k, [Receive(accept)])
  {
    hide StepApply;
    Single(k, Receive(accept));
  }

  lemma ReadyTransmit(k: Link)
    requires k.queue != []
    ensures AllEnabled(k, [Transmit])
  {
    Single(k, Transmit);
  }

  lemma ReadyForeign(k: Link, m: Message)
    requires Elsewhere(k, m) && Room(k)
    ensures AllEnabled(k, [Foreign(m)])
  {
    hide Decode, StepApply;
    Single(k, Foreign(m));
  }

  /** Leaving: the table entry goes first, then the receiver. */
  lemma ReadyLeave(k: Link, id: u32)
    requires Wf(k) && id in k.lanes && !View(k, id).drain.entry.Waiting?
    ensures AllEnabled(k, Unenter(id, View(k, id)) + [Local(id, CloseRx)])
  {
    hide Project, StepApply, AllEnabled;
    var l := View(k, id);
    assert Enabled(l, CloseRx);
    if l.drain.entry.Live? {
      TwoLocals(k, id, Op.Clear, CloseRx);
      assert Unenter(id, l) + [Local(id, CloseRx)] == [Local(id, Op.Clear), Local(id, CloseRx)];
    } else {
      ReadyLocal(k, id, CloseRx);
      assert Unenter(id, l) + [Local(id, CloseRx)] == [Local(id, CloseRx)];
    }
  }

  lemma UpgradeReady(k: Link, id: u32)
    requires Wf(k) && id in k.lanes && View(k, id).drain.sink.Running? && !View(k, id).drain.entry.Waiting?
    ensures AllEnabled(k, [Local(id, Op.Stop), Local(id, CloseRx)])
  {
    hide Project, AllEnabled, StepApply;
    TwoLocals(k, id, Op.Stop, CloseRx);
  }

  lemma RefuseReady(k: Link, id: u32)
    requires Wf(k) && id in k.lanes && k.dir.Up? && !View(k, id).drain.entry.Waiting?
    ensures var l := View(k, id);
            AllEnabled(k, (if l.drain.sink.Stopped? then [] else [Local(id, Op.Stop)]) + Unenter(id, l) + [Local(id, CloseRx)])
  {
    hide Project, AllEnabled, StepApply;
    var l := View(k, id);
    if l.drain.sink.Stopped? {
      ReadyLeave(k, id);
      assert [] + Unenter(id, l) == Unenter(id, l);
    } else {
      ReadyLocal(k, id, Op.Stop);
      AfterLocal(k, id, Op.Stop);
      var k' := StepApply(k, Local(id, Op.Stop));
      ReadyLeave(k', id);
      assert Unenter(id, View(k', id)) == Unenter(id, l);
      Prepend(k, Local(id, Op.Stop), Unenter(id, l) + [Local(id, CloseRx)]);
      assert [Local(id, Op.Stop)] + Unenter(id, l) + [Local(id, CloseRx)] == [Local(id, Op.Stop)] + (Unenter(id, l) + [Local(id, CloseRx)]);
    }
  }

  lemma Prepend(k: Link, st: Step, rest: seq<Step>)
    requires StepEnabled(k, st) && AllEnabled(StepApply(k, st), rest)
    ensures AllEnabled(k, [st] + rest)
  {
    hide StepEnabled, StepApply;
    assert ([st] + rest)[1..] == rest;
  }

  lemma TimeoutReady(k: Link, id: u32)
    requires Wf(k) && id in k.lanes
    ensures AllEnabled(k, [Local(id, Abort), Local(id, Finish([Reject]))])
  {
    hide Project, AllEnabled, StepApply;
    ShortFits(k.dir, View(k, id).kind, [Reject]);
    TwoLocals(k, id, Abort, Finish([Reject]));
  }

  lemma RejectReady(k: Link, id: u32, data: seq<byte>)
    requires Wf(k) && id in k.lanes && MayBuffer(View(k, id)) && !View(k, id).source.ended && View(k, id).source.pend == []
    ensures AllEnabled(k, [Local(id, Op.Read(data, [])), Local(id, Finish([Reject, Reject]))])
  {
    hide Project, AllEnabled, StepApply;
    ShortFits(k.dir, View(k, id).kind, [Reject, Reject]);
    TwoLocals(k, id, Op.Read(data, []), Finish([Reject, Reject]));
  }

  lemma CutPlain(u: Lane, data: seq<byte>)
    requires u.created && u.dir.Up? && !u.source.ended && u.source.pend == [] && u.source.uncut == [] && (u.source.led || !u.kind.Http?)
    ensures var items := Chunks(data, Frames.MAX_FRAME_PAYLOAD); Enabled(u, Op.Read(data, items)) && AllFit(Up, u.kind, items)
  {
    hide Carry, LeadCount, EmptyLeads;
    var items := Chunks(data, Frames.MAX_FRAME_PAYLOAD);
    CarryChunks(data, Frames.MAX_FRAME_PAYLOAD);
    NoLeads(items);
    assert u.source.uncut + data == data;
  }

  lemma CutHead(u: Lane, data: seq<byte>, end: nat)
    requires u.created && MayBuffer(u) && !u.source.ended && u.source.pend == []
    requires |u.source.uncut + data| <= HEAD_LIMIT && EndsAt(u.source.uncut + data, end)
    ensures var buf := u.source.uncut + data;
            end <= |buf| &&
            var items := [Lead(buf[..end])] + Chunks(buf[end..], Frames.MAX_FRAME_PAYLOAD);
            Enabled(u, Op.Read(data, items)) && AllFit(Up, u.kind, items)
  {
    hide Carry, LeadCount, EmptyLeads;
    var buf := u.source.uncut + data;
    EndsWithin(buf, end);
    var rest := Chunks(buf[end..], Frames.MAX_FRAME_PAYLOAD);
    CarryChunks(buf[end..], Frames.MAX_FRAME_PAYLOAD);
    NoLeads(rest);
    One(Lead(buf[..end]));
    Concat([Lead(buf[..end])], rest);
    assert buf[..end] + buf[end..] == buf;
  }

  // ---- group by group ----

  lemma ReadyConnDown(k: Link, id: u32, u: Lane, a: ConnStep)
    requires Wf(k) && k.dir.Down? && id in k.lanes && Good(View(k, id)) && ConnGuard(View(k, id), u, Room(k), a)
    ensures AllEnabled(k, ConnDown(id, View(k, id), a))
  {
    hide Project, Good, AllEnabled, Wf, View, Chunks;
    var d := View(k, id);
    ViewDir(k, id);
    DownFacts(d);
    match a
    case Read(data) =>
      CutVisitor(d, data);
      ReadyLocal(k, id, Op.Read(data, Chunks(data, DATA_CHUNK_MAX)));
    case Eof =>
      ShortFits(Down, d.kind, [End(CLOSE_OK)]);
      ReadyLocal(k, id, Finish(if d.kind.Http? then [] else [End(CLOSE_OK)]));
    case Lost => ReadyLocal(k, id, Abort);
    case Push => ReadyPush(k, id);
    case UpgradeEnd =>
      ShortFits(Down, d.kind, [End(CLOSE_OK)]);
      ReadyLocal(k, id, Finish([End(CLOSE_OK)]));
    case Tell => ReadyInject(k, id, End(CLOSE_APP_ERROR));
    case Refuse => ReadyLocal(k, id, Abort);
    case Leave => ReadyLocal(k, id, Abort);
    case _ => Nothing(k);
  }

  lemma ViewDir(k: Link, id: u32)
    requires Wf(k) && id in k.lanes
    ensures View(k, id).dir == k.dir && View(k, id).kind == k.lanes[id].kind
  {
    hide Project;
  }

  lemma CutVisitor(d: Lane, data: seq<byte>)
    requires d.created && !d.source.ended && d.source.pend == [] && d.source.uncut == [] && d.source.led
    ensures var items := Chunks(data, DATA_CHUNK_MAX); Enabled(d, Op.Read(data, items)) && AllFit(Down, d.kind, items)
  {
    hide Carry, LeadCount, EmptyLeads;
    CarryChunks(data, DATA_CHUNK_MAX);
    NoLeads(Chunks(data, DATA_CHUNK_MAX));
    assert d.source.uncut + data == data;
  }

  lemma ReadyConnUp(k: Link, id: u32, d: Lane, room: bool, a: ConnStep)
    requires Wf(k) && k.dir.Up? && id in k.lanes && Good(View(k, id)) && ConnGuard(d, View(k, id), room, a)
    ensures AllEnabled(k, ConnUp(id, View(k, id), a))
  {
    hide Project, Good, AllEnabled, Wf, View, Chunks, Unenter;
    var u := View(k, id);
    ViewDir(k, id);
    UpFacts(u);
    match a
    case Take => ReadyLocal(k, id, Op.Take);
    case Write(n) => ReadyLocal(k, id, Op.Write(n));
    case WriteFail => ReadyLocal(k, id, Op.WriteFail(false));
    case Stop => ReadyLocal(k, id, Op.Stop);
    case Upgrade => UpgradeReady(k, id);
    case Refuse => RefuseReady(k, id);
    case Hangup => ReadyLocal(k, id, CloseRx);
    case Detach => ReadyLocal(k, id, CloseRx);
    case Leave => ReadyLeave(k, id);
    case Clear => ReadyLocal(k, id, Op.Clear);
    case _ => Nothing(k);
  }

  lemma ReadyTaskDown(k: Link, id: u32, u: Lane, room: bool, a: TaskStep)
    requires Wf(k) && k.dir.Down? && id in k.lanes && Good(View(k, id)) && TaskGuard(View(k, id), u, room, a)
    ensures AllEnabled(k, TaskDown(id, View(k, id), u, a))
  {
    hide Project, Good, AllEnabled, Wf, View, Chunks, Unenter, MayBuffer;
    var d := View(k, id);
    ViewDir(k, id);
    DownFacts(d);
    match a
    case Fetch => ReadyLocal(k, id, Op.Take);
    case Output(n) => ReadyLocal(k, id, Op.Write(n));
    case OutputFail => ReadyLocal(k, id, Op.WriteFail(!MayBuffer(u)));
    case Quit => ReadyLeave(k, id);
    case Detach => ReadyLeave(k, id);
    case Drop => ReadyLocal(k, id, Op.Clear);
    case _ => Nothing(k);
  }

  lemma ReadyTaskUp(k: Link, id: u32, d: Lane, a: TaskStep)
    requires Wf(k) && k.dir.Up? && id in k.lanes && Good(View(k, id)) && TaskGuard(d, View(k, id), Room(k), a)
    ensures AllEnabled(k, TaskUp(id, View(k, id), a))
  {
    hide Project, Good, AllEnabled, Wf, View, Chunks, LocalSteps, Carry, LeadCount, EmptyLeads;
    var u := View(k, id);
    ViewDir(k, id);
    UpFacts(u);
    match a
    case DialFail =>
      ShortFits(Up, u.kind, [Reject]);
      ReadyLocal(k, id, Finish([Reject]));
    case TcpAck =>
      One(Lead([]));
      ShortFits(Up, u.kind, [Lead([])]);
      ReadyLocal(k, id, Op.Read([], [Lead([])]));
    case LocalRead(data) => LocalReady(k, id, data);
    case LocalEnd(code) =>
      ShortFits(Up, u.kind, [End(code)]);
      ReadyLocal(k, id, Finish([End(code)]));
    case ShakeFail(twice) =>
      var items := if twice then [Reject, Reject] else [Reject];
      ShortFits(Up, u.kind, items);
      ReadyLocal(k, id, Finish(items));
    case AckTimeout => TimeoutReady(k, id);
    case Queue => ReadyPush(k, id);
    case OutputFail =>
      Nothing(k);
      if !u.kind.Http? {
        ReadyInject(k, id, End(CLOSE_APP_ERROR));
      }
    case Quit => ReadyLocal(k, id, Abort);
    case Fade => ReadyLocal(k, id, Abort);
    case _ => Nothing(k);
  }

  predicate CanRead(u: Lane) {
    u.created && u.dir.Up? && (u.source.uncut != [] ==> MayBuffer(u)) && !u.source.ended && u.source.pend == [] &&
    (u.source.led || u.kind.Http?)
  }

  /** What the local service sends is always cut into frames that fit, whatever the handshake makes of it. */
  lemma LocalReady(k: Link, id: u32, data: seq<byte>)
    requires Wf(k) && k.dir.Up? && id in k.lanes
    requires CanRead(View(k, id))
    ensures AllEnabled(k, LocalSteps(id, View(k, id), data))
  {
    hide Project, AllEnabled, HeadEnd, EndsAt, Carry, LeadCount, EmptyLeads, Fits, View, StepEnabled, Wf, Chunks;
    var u := View(k, id);
    var max := Frames.MAX_FRAME_PAYLOAD;
    var buf := u.source.uncut + data;
    if !MayBuffer(u) {
      CutPlain(u, data);
      ReadyLocal(k, id, Op.Read(data, Chunks(data, max)));
    } else if |buf| > HEAD_LIMIT || (HeadEnd(buf).Some? && !LooksRight(CLIENT, buf)) {
      RejectReady(k, id, data);
    } else if HeadEnd(buf).None? {
      ReadyLocal(k, id, Op.Read(data, []));
    } else {
      CutHead(u, data, HeadEnd(buf).value);
      ReadyLocal(k, id, Op.Read(data, [Lead(buf[..HeadEnd(buf).value])] + Chunks(buf[HeadEnd(buf).value..], max)));
    }
  }

  lemma ReadyLoop(s: Tunnel, a: LoopStep)
    requires Wf(s.down) && Wf(s.up) && LoopGuard(s, a)
    ensures AllEnabled(s.down, LoopDown(s, a)) && AllEnabled(s.up, LoopUp(s, a))
  {
    hide AllEnabled, Wf, StepEnabled, StepApply, Decode;
    Nothing(s.down);
    Nothing(s.up);
    match a
    case BrokerReceive => ReadyReceive(s.up, true);
    case BrokerDeliver => Single(s.up, DeliverHeld);
    case BrokerDrop => Single(s.up, DropHeld);
    case BrokerStall => Single(s.up, StallHeld);
    case StallClose => ReadyInject(s.down, s.stalled.value, End(CLOSE_APP_ERROR));
    case ClientReceive(accept) => ReadyReceive(s.down, accept);
    case ClientRefuse => ReadyInject(s.up, s.refusing.value, Reject);
    case ClientDeliver => Single(s.down, DeliverHeld);
    case ClientDrop => Single(s.down, DropHeld);
    case DownTransmit => ReadyTransmit(s.down);
    case UpTransmit => ReadyTransmit(s.up);
    case DownForeign(m) => ReadyForeign(s.down, m);
    case UpForeign(m) => ReadyForeign(s.up, m);
    case _ =>
  }

  /** Every step of every label that its guard lets happen is possible, in both directions. */
  lemma Ready(s: Tunnel, l: Label)
    requires TunnelInv(s) && Guard(s, l) && (l.Accept? || l.DrawId? ==> s.issued < ID_SPACE)
    ensures AllEnabled(s.down, DownSteps(s, l)) && AllEnabled(s.up, UpSteps(s, l))
  {
    hide AllEnabled, Good, Project, View, StepEnabled, StepApply, ConnGuard, TaskGuard, ConnDown, ConnUp, TaskDown, TaskUp, Inv, Fits;
    match l
    case Accept(kind, head) =>
      AcceptReady(s, kind, head);
      Single(s.down, Create(NextId(s.issued), StartDown(kind, head)));
      Single(s.up, Create(NextId(s.issued), StartUp(kind)));
    case DrawId =>
      DrawReady(s);
      Single(s.down, Reserve(NextId(s.issued)));
      Single(s.up, Reserve(NextId(s.issued)));
    case Conn(id, a) =>
      Standing(s, id);
      ReadyConnDown(s.down, id, U(s, id), a);
      ReadyConnUp(s.up, id, D(s, id), Room(s.down), a);
    case Task(id, a) =>
      Standing(s, id);
      ReadyTaskDown(s.down, id, U(s, id), Room(s.up), a);
      ReadyTaskUp(s.up, id, D(s, id), a);
    case Loop(a) => ReadyLoop(s, a);
  }

  // ---- the invariant over every run ----

  lemma {:induction false} KeepSteps(k: Link, steps: seq<Step>)
    requires LinkInv(k)
    ensures LinkInv(RunSteps(k, steps)) && RunSteps(k, steps).dir == k.dir
    decreases |steps|
  {
    hide LinkInv, StepEnabled, StepApply;
    if steps != [] {
      if StepEnabled(k, steps[0]) {
        KeepLink(k, steps[0]);
        KeepDir(k, steps[0]);
        KeepSteps(StepApply(k, steps[0]), steps[1..]);
      } else {
        KeepSteps(k, steps[1..]);
      }
    }
  }

  lemma KeepDir(k: Link, st: Step)
    requires LinkInv(k) && StepEnabled(k, st)
    ensures StepApply(k, st).dir == k.dir
    ensures StepApply(k, st).lanes.Keys == k.lanes.Keys + (if st.Create? then {st.id} else {})
    ensures StepApply(k, st).others == k.others + (if st.Reserve? then {st.id} else {})
  {
    hide Project, Decode, Encode, Fits, Apply, Enabled, Route, Inv;
    KeepWf(k, st);
  }

  /** Only an accepted connection enters a stream. */
  lemma {:induction false} KeepKeys(k: Link, steps: seq<Step>)
    requires LinkInv(k) && forall st :: st in steps ==> !st.Create? && !st.Reserve?
    ensures RunSteps(k, steps).lanes.Keys == k.lanes.Keys && RunSteps(k, steps).others == k.others
    decreases |steps|
  {
    hide LinkInv, StepEnabled, StepApply;
    if steps != [] {
      assert steps[0] in steps;
      if StepEnabled(k, steps[0]) {
        KeepLink(k, steps[0]);
        KeepDir(k, steps[0]);
        KeepKeys(StepApply(k, steps[0]), steps[1..]);
      } else {
        KeepKeys(k, steps[1..]);
      }
    }
  }

  lemma NoCreates(s: Tunnel, l: Label)
    requires Guard(s, l) && !l.Accept? && !l.DrawId?
    ensures forall st :: st in DownSteps(s, l) || st in UpSteps(s, l) ==> !st.Create? && !st.Reserve?
  {
    hide View, Chunks, HeadEnd, EndsAt, StepEnabled, ConnGuard, TaskGuard;
  }

  /** A session stays in order as long as no more than 2^32 stream ids have been drawn. */
  lemma KeepTunnel(s: Tunnel, l: Label)
    requires TunnelInv(s) && Guard(s, l) && Next(s, l).issued <= ID_SPACE
    ensures TunnelInv(Next(s, l))
  {
    hide LinkInv, Guard, DownSteps, UpSteps, StepEnabled, StepApply, RunSteps, Rejected;
    KeepSteps(s.down, DownSteps(s, l));
    KeepSteps(s.up, UpSteps(s, l));
    if l.Accept? {
      KeepAccept(s, l);
    } else if l.DrawId? {
      KeepDraw(s);
    } else {
      NoCreates(s, l);
      KeepKeys(s.down, DownSteps(s, l));
      KeepKeys(s.up, UpSteps(s, l));
      KnownIds(s, Next(s, l));
    }
  }

  lemma KnownIds(s: Tunnel, s': Tunnel)
    requires TunnelInv(s) && s'.down.lanes.Keys == s.down.lanes.Keys && s'.down.others == s.down.others && s'.issued == s.issued
    ensures forall id :: id in s'.down.lanes || id in s'.down.others ==> Draw(id) <= s'.issued
  {
    hide LinkInv;
    forall id | id in s'.down.lanes
      ensures Draw(id) <= s'.issued
    {
      assert id in s'.down.lanes.Keys;
    }
  }

  lemma KeepAccept(s: Tunnel, l: Label)
    requires TunnelInv(s) && Guard(s, l) && l.Accept? && s.issued < ID_SPACE
    ensures var s' := Next(s, l);
            && s'.down.lanes.Keys == s'.up.lanes.Keys && s'.down.others == s'.up.others
            && forall id :: id in s'.down.lanes || id in s'.down.others ==> Draw(id) <= s'.issued
  {
    hide LinkInv, StepEnabled, Rejected, Inv;
    AcceptReady(s, l.kind, l.head);
    var id := NextId(s.issued);
    RunOne(s.down, Create(id, StartDown(l.kind, l.head)));
    RunOne(s.up, Create(id, StartUp(l.kind)));
    assert Draw(id) == s.issued + 1;
  }

  lemma KeepDraw(s: Tunnel)
    requires TunnelInv(s) && s.issued < ID_SPACE
    ensures var s' := Next(s, DrawId);
            && s'.down.lanes.Keys == s'.up.lanes.Keys && s'.down.others == s'.up.others
            && forall id :: id in s'.down.lanes || id in s'.down.others ==> Draw(id) <= s'.issued
  {
    hide LinkInv, StepEnabled, Rejected, Inv;
    DrawReady(s);
    var id := NextId(s.issued);
    RunOne(s.down, Reserve(id));
    RunOne(s.up, Reserve(id));
    assert Draw(id) == s.issued + 1;
  }

  lemma RunOne(k: Link, st: Step)
    requires StepEnabled(k, st)
    ensures RunSteps(k, [st]) == StepApply(k, st)
  {
    hide StepEnabled, StepApply;
    assert [st][1..] == [];
  }

  lemma OneLocal(k: Link, id: u32, op: Op)
    requires Wf(k) && StepEnabled(k, Local(id, op))
    ensures View(RunSteps(k, [Local(id, op)]), id) == Apply(View(k, id), op)
  {
    hide StepEnabled, StepApply, View, Apply, Enabled;
    AfterLocal(k, id, op);
    RunOne(k, Local(id, op));
  }

  lemma TwoLocalSteps(k: Link, id: u32, a: Op, b: Op)
    requires Wf(k) && AllEnabled(k, [Local(id, a), Local(id, b)]) && Enabled(View(k, id), a) && Enabled(Apply(View(k, id), a), b)
    ensures View(RunSteps(k, [Local(id, a), Local(id, b)]), id) == Apply(Apply(View(k, id), a), b)
  {
    hide StepEnabled, StepApply, View, Apply, Enabled;
    var steps := [Local(id, a), Local(id, b)];
    assert steps[1..] == [Local(id, b)];
    AfterLocal(k, id, a);
    KeepWf(k, Local(id, a));
    OneLocal(StepApply(k, Local(id, a)), id, b);
  }

  // ---- runs ----

  predicate Possible(s: Tunnel, run: seq<Label>)
    decreases |run|
  {
    run == [] || (Guard(s, run[0]) && Possible(Next(s, run[0]), run[1..]))
  }

  function After(s: Tunnel, run: seq<Label>): Tunnel
    requires Possible(s, run)
    decreases |run|
  {
    if run == [] then s else After(Next(s, run[0]), run[1..])
  }

  lemma {:induction false} IssuedGrows(s: Tunnel, run: seq<Label>)
    requires Possible(s, run)
    ensures s.issued <= After(s, run).issued
    decreases |run|
  {
    hide Guard, DownSteps, UpSteps, RunSteps, Rejected;
    if run != [] {
      IssuedGrows(Next(s, run[0]), run[1..]);
    }
  }

  lemma {:induction false} KeepRun(s: Tunnel, run: seq<Label>)
    requires TunnelInv(s) && Possible(s, run) && After(s, run).issued <= ID_SPACE
    ensures TunnelInv(After(s, run))
    decreases |run|
  {
    hide Guard, DownSteps, UpSteps, RunSteps, Rejected, TunnelInv;
    if run != [] {
      IssuedGrows(Next(s, run[0]), run[1..]);
      KeepTunnel(s, run[0]);
      KeepRun(Next(s, run[0]), run[1..]);
    }
  }

  lemma InitInv()
    ensures TunnelInv(INIT)
  {
  }

  /** Any run of a whole session. */
  predicate Session(run: seq<Label>) {
    Possible(INIT, run) && After(INIT, run).issued <= ID_SPACE
  }

  lemma SessionInv(run: seq<Label>, id: u32)
    requires Session(run)
    ensures TunnelInv(After(INIT, run)) && Inv(D(After(INIT, run), id)) && Inv(U(After(INIT, run), id))
  {
    hide Guard, DownSteps, UpSteps, RunSteps, Rejected, Possible, After, Project, Inv, View;
    InitInv();
    KeepRun(INIT, run);
  }
}
