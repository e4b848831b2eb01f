/**
 * One direction of one tunnel session: any number of lanes over one ordered queue of WebSocket messages.
 * Every lane can be looked at through `View`, which keeps only its own frames; the lemmas say that a step
 * of the shared machine is, for each stream, either one operation of that stream's own lane or nothing.
 */
module Links {
  import opened Bytes
  import opened Items
  import opened Lanes
  import Frames
  import OpenMetas

  const WS_QUEUE_CAP: nat := 16
  const CLIENT_QUEUE_CAP: nat := 64

  datatype Message = Text | Binary(bytes: seq<byte>)

  datatype Held = Held(id: u32, item: Item)

  datatype Link = Link(
    dir: Dir,
    queue: seq<Message>,   // the bounded queue in front of the one writer task
    net: seq<Message>,     // written to the socket, not yet read at the other end
    held: Option<Held>,    // what the receiving loop is waiting to hand over
    lanes: map<u32, Lane>, // the two ends of every stream opened so far; flow and hold live above
    others: set<u32>       // ids that went to flows of another kind, which have tables of their own
  )

  function QueueCap(d: Dir): nat {
    if d.Down? then WS_QUEUE_CAP else CLIENT_QUEUE_CAP
  }

  // ---- frames and what they mean ----

  function MetaOf(kind: OpenMetas.StreamKind, head: seq<byte>): OpenMetas.OpenMeta {
    OpenMetas.OpenMeta(kind, 0, if kind.Http? then Some(head) else None)
  }

  /** What a task may queue: within the frame's size limits, and a head only where there is a place for it. */
  predicate Fits(d: Dir, kind: OpenMetas.StreamKind, i: Item) {
    match i
    case Lead(head) =>
      if d.Down? then |head| <= OpenMetas.MAX_HEAD && (kind.Http? || head == [])
      else |head| <= Frames.MAX_FRAME_PAYLOAD
    case Chunk(data) => |data| <= Frames.MAX_FRAME_PAYLOAD
    case _ => true
  }

  lemma JunkFits(d: Dir, kind: OpenMetas.StreamKind, i: Item)
    requires IsJunk(i)
    ensures Fits(d, kind, i)
  {
  }

  function FrameOf(d: Dir, kind: OpenMetas.StreamKind, id: u32, i: Item): (f: Frames.Frame)
    requires Fits(d, kind, i)
    ensures Frames.Fits(f) && f.streamId == id
  {
    match i
    case Lead(head) =>
      if d.Down? then Frames.Frame(Frames.Open, id, OpenMetas.Wire(MetaOf(kind, head)))
      else Frames.Frame(Frames.OpenAck, id, head)
    case Chunk(data) => Frames.Frame(Frames.Data, id, data)
    case End(code) => Frames.Frame(Frames.Close, id, [code])
    case Reject => Frames.Frame(Frames.OpenReject, id, [])
    case Noise => Frames.Frame(Frames.Ping, id, [])
  }

  /** How the receiving loop reads a frame; None for the UDP opcodes, which have tables of their own. */
  function ItemOf(d: Dir, f: Frames.Frame): Option<Item> {
    match f.opcode
    case Open =>
      var m := OpenMetas.Decode(f.payload);
      if d.Down? && m.Ok? then Some(Lead(if m.meta.head.Some? then m.meta.head.value else [])) else Some(Noise)
    case OpenAck => if d.Up? then Some(Lead(f.payload)) else Some(Noise)
    case OpenReject => Some(Reject)
    case Data => Some(Chunk(f.payload))
    case Close => Some(End(if f.payload == [] then CLOSE_OK else f.payload[0]))
    case Ping => Some(Noise)
    case _ => None
  }

  /** The message a task hands to the writer. */
  function Encode(d: Dir, kind: OpenMetas.StreamKind, id: u32, i: Item): Message
    requires Fits(d, kind, i)
  {
    Binary(Frames.Wire(FrameOf(d, kind, id, i)))
  }

  /** What a received message is to the loop: one item of one stream, or nothing it routes. */
  function Decode(d: Dir, m: Message): Option<Held> {
    if m.Text? then None else
    var r := Frames.Decode(m.bytes);
    if r.Err? then None else
    var i := ItemOf(d, r.frame);
    if i.None? then None else Some(Held(r.frame.streamId, i.value))
  }

  /** What was queued is what is read, stream id included. */
  lemma DecodeEncode(d: Dir, kind: OpenMetas.StreamKind, id: u32, i: Item)
    requires Fits(d, kind, i)
    ensures Decode(d, Encode(d, kind, id, i)) == Some(Held(id, i))
  {
    hide Frames.Wire, Frames.Decode, OpenMetas.Wire, OpenMetas.Decode;
    Frames.DecodeWire(FrameOf(d, kind, id, i));
    if i.Lead? && d.Down? {
      OpenMetas.RoundTripIffWellFormed(MetaOf(kind, i.head));
    }
  }

  /** What a received message is to a loop, byte by byte: the first byte says what it is, the next four for which stream. */
  lemma Meaning(d: Dir, b: seq<byte>)
    requires Frames.Decode(b).Ok?
    ensures |b| >= 9
    ensures var r := Decode(d, Binary(b)); var id := Frames.Number(b[1], b[2], b[3], b[4]);
            && (b[0] == 1 ==>
                  var m := OpenMetas.Decode(b[9..]);
                  r == Some(Held(id, if d.Down? && m.Ok? then Lead(if m.meta.head.Some? then m.meta.head.value else []) else Noise)))
            && (b[0] == 2 ==> r == Some(Held(id, if d.Up? then Lead(b[9..]) else Noise)))
            && (b[0] == 3 ==> r == Some(Held(id, Reject)))
            && (b[0] == 4 ==> r == Some(Held(id, Chunk(b[9..]))))
            && (b[0] == 5 ==> r == Some(Held(id, End(if |b| == 9 then 0 else b[9]))))
            && (b[0] == 6 ==> r == Some(Held(id, Noise)))
            && (b[0] >= 7 ==> r == None)
  {
    hide OpenMetas.Decode;
    var p := b[9..];
    assert p == [] <==> |b| == 9;
    assert p != [] ==> p[0] == b[9];
  }

  /** Anything that is not a frame is skipped. */
  lemma NoMeaning(d: Dir, m: Message)
    requires m.Text? || Frames.Decode(m.bytes).Err?
    ensures Decode(d, m) == None
  {
  }

  /** An Open frame names the kind of its stream, no port, and carries the head of an HTTP request. */
  lemma OpenSays(kind: OpenMetas.StreamKind, id: u32, head: seq<byte>)
    requires Fits(Down, kind, Lead(head))
    ensures var r := Frames.Decode(Encode(Down, kind, id, Lead(head)).bytes);
            && r.Ok? && r.frame.opcode == Frames.Open && r.frame.streamId == id
            && OpenMetas.Decode(r.frame.payload) == OpenMetas.Ok(OpenMetas.OpenMeta(kind, 0, if kind.Http? then Some(head) else None))
  {
    hide Frames.Wire, Frames.Decode, OpenMetas.Wire, OpenMetas.Decode;
    Frames.DecodeWire(FrameOf(Down, kind, id, Lead(head)));
    OpenMetas.RoundTripIffWellFormed(MetaOf(kind, head));
  }

  function ItemFor(d: Dir, t: u32, m: Message): seq<Item> {
    var h := Decode(d, m);
    if h.Some? && h.value.id == t then [h.value.item] else []
  }

  /** The frames of stream `t` among the messages, in order. */
  function Project(d: Dir, t: u32, ms: seq<Message>): seq<Item> {
    if ms == [] then [] else ItemFor(d, t, ms[0]) + Project(d, t, ms[1..])
  }

  lemma {:induction false} ProjectSnoc(d: Dir, t: u32, ms: seq<Message>, m: Message)
    ensures Project(d, t, ms + [m]) == Project(d, t, ms) + ItemFor(d, t, m)
  {
    hide Decode, ItemFor;
    if ms == [] {
      assert ms + [m] == [m] && [m][1..] == [];
    } else {
      ProjectSnoc(d, t, ms[1..], m);
      assert (ms + [m])[1..] == ms[1..] + [m];
    }
  }

  // ---- the machine ----

  datatype Step =
    | Create(id: u32, lane: Lane)
    | Local(id: u32, op: Op)
    | PushFrame(id: u32)
    | InjectFrame(id: u32, item: Item)
    | Reserve(id: u32)
    | Foreign(m: Message)
    | Transmit
    | Receive(accept: bool)
    | DeliverHeld
    | DropHeld
    | StallHeld

  function LaneOf(k: Link, t: u32): Lane {
    if t in k.lanes then k.lanes[t] else Unused(k.dir)
  }

  function Messages(k: Link): seq<Message> {
    k.net + k.queue
  }

  function HeldBy(k: Link, t: u32): seq<Item> {
    if k.held.Some? && k.held.value.id == t then [k.held.value.item] else []
  }

  /** The session as stream `t` sees it. */
  function View(k: Link, t: u32): Lane {
    if t in k.others then Unused(k.dir)
    else LaneOf(k, t).(flow := Project(k.dir, t, Messages(k)), hold := HeldBy(k, t))
  }

  function Put(k: Link, t: u32, l: Lane): Link {
    k.(lanes := k.lanes[t := l.(flow := [], hold := [])])
  }

  predicate AllFit(d: Dir, kind: OpenMetas.StreamKind, items: seq<Item>) {
    forall i :: i in items ==> Fits(d, kind, i)
  }

  /** A message no stream is meant by: nothing the loop routes, or a frame of a flow of another kind. */
  predicate Elsewhere(k: Link, m: Message) {
    var h := Decode(k.dir, m);
    h.Some? ==> h.value.id in k.others && !IsLead(h.value.item)
  }

  predicate StepEnabled(k: Link, s: Step) {
    match s
    case Create(id, lane) =>
      id !in k.lanes && id !in k.others && lane.dir == k.dir && lane.created && lane.flow == [] && lane.hold == [] && Inv(lane) &&
      lane.drain.chan == [] && AllFit(k.dir, lane.kind, lane.source.pend)
    case Local(id, op) =>
      id in k.lanes && IsLocal(op) && Enabled(View(k, id), op) &&
      (op.Read? ==> AllFit(k.dir, k.lanes[id].kind, op.items)) &&
      (op.Finish? ==> AllFit(k.dir, k.lanes[id].kind, op.items))
    case PushFrame(id) =>
      id in k.lanes && k.lanes[id].created && k.lanes[id].source.pend != [] && |k.queue| < QueueCap(k.dir) &&
      Fits(k.dir, k.lanes[id].kind, k.lanes[id].source.pend[0])
    case InjectFrame(id, item) =>
      id in k.lanes && k.lanes[id].created && IsJunk(item) && |k.queue| < QueueCap(k.dir)
    case Reserve(id) => id !in k.lanes
    case Foreign(m) => Elsewhere(k, m) && |k.queue| < QueueCap(k.dir)
    case Transmit => k.queue != []
    case Receive(_) => k.net != [] && k.held.None?
    case DeliverHeld => k.held.Some? && Enabled(View(k, k.held.value.id), Deliver)
    case DropHeld => k.held.Some? && Enabled(View(k, k.held.value.id), DeliverClosed)
    case StallHeld => k.held.Some? && Enabled(View(k, k.held.value.id), Stall)
  }

  function StepApply(k: Link, s: Step): Link
    requires StepEnabled(k, s)
  {
    match s
    case Create(id, lane) => Put(k, id, lane)
    case Local(id, op) => Put(k, id, Apply(View(k, id), op))
    case PushFrame(id) =>
      var l := k.lanes[id];
      Put(k, id, l.(source := l.source.(pend := l.source.pend[1..]))).(queue := k.queue + [Encode(k.dir, l.kind, id, l.source.pend[0])])
    case InjectFrame(id, item) =>
      k.(queue := k.queue + [Encode(k.dir, k.lanes[id].kind, id, item)])
    case Reserve(id) => k.(others := k.others + {id})
    case Foreign(m) => k.(queue := k.queue + [m])
    case Transmit => k.(net := k.net + [k.queue[0]], queue := k.queue[1..])
    case Receive(accept) =>
      var h := Decode(k.dir, k.net[0]);
      var k' := k.(net := k.net[1..]);
      if h.None? || h.value.id !in k.lanes then k' else Deal(k', h.value, accept)
    case DeliverHeld => Put(k, k.held.value.id, Apply(View(k, k.held.value.id), Deliver)).(held := None)
    case DropHeld => k.(held := None)
    case StallHeld => Put(k, k.held.value.id, Apply(View(k, k.held.value.id), Stall)).(held := None)
  }

  /** The receiving loop acts on one item of a stream it has an end of. */
  function Deal(k: Link, h: Held, accept: bool): Link
    requires h.id in k.lanes
  {
    var l := k.lanes[h.id];
    var r := Route(k.dir, l.drain, h.item, accept);
    Put(k, h.id, l.(drain := r.drain)).(held := if r.hold == [] then None else Some(Held(h.id, r.hold[0])))
  }

  /** What a step is to stream `t` alone. */
  function OpFor(k: Link, s: Step, t: u32): Option<Op> {
    match s
    case Create(_, _) => None
    case Local(id, op) => if id == t then Some(op) else None
    case PushFrame(id) => if id == t then Some(Push) else None
    case InjectFrame(id, item) => if id == t then Some(Inject(item)) else None
    case Reserve(_) => None
    case Foreign(_) => None
    case Transmit => None
    case Receive(accept) =>
      if k.net != [] && Decode(k.dir, k.net[0]).Some? && Decode(k.dir, k.net[0]).value.id == t && t in k.lanes
      then Some(Dispatch(accept)) else None
    case DeliverHeld => if k.held.Some? && k.held.value.id == t then Some(Deliver) else None
    case DropHeld => if k.held.Some? && k.held.value.id == t then Some(DeliverClosed) else None
    case StallHeld => if k.held.Some? && k.held.value.id == t then Some(Stall) else None
  }

  /** Shape of the machine's own state. */
  predicate Wf(k: Link) {
    && (forall t :: t in k.lanes ==>
          k.lanes[t].dir == k.dir && k.lanes[t].created && k.lanes[t].flow == [] && k.lanes[t].hold == [] &&
          AllFit(k.dir, k.lanes[t].kind, k.lanes[t].source.pend))
    && (k.held.Some? ==> k.held.value.id in k.lanes)
    && k.lanes.Keys !! k.others
  }

  ghost predicate LinkInv(k: Link) {
    Wf(k) && forall t: u32 :: Inv(View(k, t))
  }

  /** The frames of `t` after one message more at the end of the queue. */
  lemma Enqueue(k: Link, m: Message, t: u32)
    ensures Project(k.dir, t, Messages(k.(queue := k.queue + [m]))) ==
            Project(k.dir, t, Messages(k)) + ItemFor(k.dir, t, m)
  {
    hide Project, ItemFor;
    assert Messages(k.(queue := k.queue + [m])) == Messages(k) + [m];
    ProjectSnoc(k.dir, t, Messages(k), m);
  }

  /** The simulation statement for one step and one stream. */
  predicate Simulated(k: Link, s: Step, t: u32)
    requires StepEnabled(k, s)
  {
    var op := OpFor(k, s, t);
    var v := View(k, t);
    var v' := View(StepApply(k, s), t);
    if op.None? then v' == v || (s.Receive? && t !in k.lanes && v.flow != []) || (s.Reserve? && s.id == t)
    else Enabled(v, op.value) && v' == Apply(v, op.value)
  }

  lemma SimPush(k: Link, id: u32, t: u32)
    requires Wf(k) && StepEnabled(k, PushFrame(id))
    ensures Simulated(k, PushFrame(id), t)
  {
    hide Project, Decode, Encode, Fits;
    var l := k.lanes[id];
    DecodeEncode(k.dir, l.kind, id, l.source.pend[0]);
    Enqueue(k, Encode(k.dir, l.kind, id, l.source.pend[0]), t);
  }

  lemma SimInject(k: Link, id: u32, item: Item, t: u32)
    requires Wf(k) && StepEnabled(k, InjectFrame(id, item))
    ensures Simulated(k, InjectFrame(id, item), t)
  {
    hide Project, Decode, Encode, Fits;
    JunkFits(k.dir, k.lanes[id].kind, item);
    DecodeEncode(k.dir, k.lanes[id].kind, id, item);
    Enqueue(k, Encode(k.dir, k.lanes[id].kind, id, item), t);
  }

  lemma SimReceive(k: Link, accept: bool, t: u32)
    requires Wf(k) && StepEnabled(k, Receive(accept))
    ensures Simulated(k, Receive(accept), t)
  {
    hide Decode, Route, Project;
    ReceiveProject(k, t);
    assert Messages(StepApply(k, Receive(accept))) == k.net[1..] + k.queue;
    var h := Decode(k.dir, k.net[0]);
    if h.Some? && h.value.id == t && t in k.lanes {
      var rest := Project(k.dir, t, k.net[1..] + k.queue);
      assert View(k, t).flow == [h.value.item] + rest;
      assert ([h.value.item] + rest)[1..] == rest;
      var hold := Route(k.dir, k.lanes[t].drain, h.value.item, accept).hold;
      assert hold == [] || hold == [hold[0]];
    }
  }

  /** The head of the socket is the head of its own stream's path, and on no other stream's. */
  lemma ReceiveProject(k: Link, t: u32)
    requires k.net != []
    ensures Project(k.dir, t, Messages(k)) ==
            ItemFor(k.dir, t, k.net[0]) + Project(k.dir, t, k.net[1..] + k.queue)
  {
    assert Messages(k)[0] == k.net[0] && Messages(k)[1..] == k.net[1..] + k.queue;
  }

  /** Simulation, creation aside: for every stream a step is one operation of its lane, or nothing. */
  lemma Simulates(k: Link, s: Step, t: u32)
    requires Wf(k) && StepEnabled(k, s) && !s.Create?
    ensures Simulated(k, s, t)
  {
    hide Project, Decode, Encode, Fits, Simulated, StepEnabled;
    match s
    case Local(id, op) => SimLocal(k, id, op, t);
    case PushFrame(id) => SimPush(k, id, t);
    case InjectFrame(id, item) => SimInject(k, id, item, t);
    case Receive(accept) => SimReceive(k, accept, t);
    case Reserve(_) => SimReserve(k, s, t);
    case Foreign(_) => SimQueue(k, s, t);
    case Transmit => SimQueue(k, s, t);
    case _ => SimHeld(k, s, t);
  }

  lemma SimQueue(k: Link, s: Step, t: u32)
    requires Wf(k) && StepEnabled(k, s) && (s.Foreign? || s.Transmit?)
    ensures Simulated(k, s, t)
  {
    hide Project, Decode, Encode, Fits;
    if s.Foreign? {
      Enqueue(k, s.m, t);
    } else {
      assert Messages(StepApply(k, s)) == Messages(k);
    }
  }

  lemma SimReserve(k: Link, s: Step, t: u32)
    requires Wf(k) && StepEnabled(k, s) && s.Reserve?
    ensures Simulated(k, s, t)
  {
    hide Project;
    assert Messages(StepApply(k, s)) == Messages(k);
  }

  lemma SimHeld(k: Link, s: Step, t: u32)
    requires Wf(k) && StepEnabled(k, s) && (s.DeliverHeld? || s.DropHeld? || s.StallHeld?)
    ensures Simulated(k, s, t)
  {
    hide Project, Decode, Encode, Fits;
  }

  lemma SimLocal(k: Link, id: u32, op: Op, t: u32)
    requires Wf(k) && StepEnabled(k, Local(id, op))
    ensures Simulated(k, Local(id, op), t)
  {
    hide Project, Decode, Encode, Fits, Apply, Enabled;
    LocalFrame(View(k, id), op);
  }

  // ---- the invariant over every step ----

  /** Steps keep the machine's own state in shape. */
  lemma KeepWf(k: Link, s: Step)
    requires Wf(k) && StepEnabled(k, s)
    ensures Wf(StepApply(k, s)) && StepApply(k, s).dir == k.dir
  {
    hide Project, Decode, Encode, Fits, Apply, Enabled, Route;
    match s
    case Local(id, op) =>
      LocalFrame(View(k, id), op);
    case Receive(accept) =>
      var h := Decode(k.dir, k.net[0]);
      if h.Some? && h.value.id in k.lanes {
        assert k.lanes[h.value.id].flow == [];
      }
    case DeliverHeld => HeldFrame(View(k, k.held.value.id), Deliver);
    case StallHeld => HeldFrame(View(k, k.held.value.id), Stall);
    case _ =>
  }

  lemma HeldFrame(l: Lane, op: Op)
    requires Enabled(l, op) && (op.Deliver? || op.Stall?)
    ensures var l' := Apply(l, op);
            l'.dir == l.dir && l'.kind == l.kind && l'.created && l'.source.pend == l.source.pend && l'.hold == []
  {
  }

  lemma KeepLink(k: Link, s: Step)
    requires LinkInv(k) && StepEnabled(k, s)
    ensures LinkInv(StepApply(k, s))
  {
    KeepWf(k, s);
    forall t: u32
      ensures Inv(View(StepApply(k, s), t))
    {
      KeepView(k, s, t);
    }
  }

  lemma KeepView(k: Link, s: Step, t: u32)
    requires LinkInv(k) && StepEnabled(k, s)
    ensures Inv(View(StepApply(k, s), t))
  {
    hide Project, Decode, Encode, Fits;
    assert Inv(View(k, t));
    if s.Create? {
      assert s.id == t ==> View(StepApply(k, s), t) == s.lane;
    } else {
      Simulates(k, s, t);
      var op := OpFor(k, s, t);
      if op.Some? {
        Keep(View(k, t), op.value);
      }
    }
  }

  /** Isolation: a step for one stream is invisible to every other one. */
  lemma Isolated(k: Link, s: Step, t: u32)
    requires LinkInv(k) && StepEnabled(k, s) && OpFor(k, s, t).None? && !(s.Create? && s.id == t)
    ensures View(StepApply(k, s), t) == View(k, t)
  {
    hide Project, Decode, Encode, Fits;
    assert Inv(View(k, t));
    if !s.Create? {
      Simulates(k, s, t);
    }
  }

  // ---- the queues are bounded ----

  predicate Bounded(k: Link) {
    |k.queue| <= QueueCap(k.dir) && forall t :: t in k.lanes ==> |k.lanes[t].drain.chan| <= ChanCap(k.dir)
  }

  lemma ChannelBounded(l: Lane, op: Op)
    requires Enabled(l, op) && |l.drain.chan| <= ChanCap(l.dir) && |l.hold| <= 1
    ensures |Apply(l, op).drain.chan| <= ChanCap(l.dir)
  {
    hide Carry, LeadCount, EmptyLeads, HasFin;
  }

  lemma ReceiveBounded(k: Link, accept: bool)
    requires Wf(k) && Bounded(k) && StepEnabled(k, Receive(accept))
    ensures Bounded(StepApply(k, Receive(accept)))
  {
    hide Project, Decode, Encode, Fits, AllFit, Wf;
  }

  /** No step overfills the shared queue or a stream's channel. */
  lemma KeepBounded(k: Link, s: Step)
    requires Wf(k) && Bounded(k) && StepEnabled(k, s)
    ensures Bounded(StepApply(k, s))
  {
    hide Project, Decode, Encode, Fits, Apply, Enabled, AllFit;
    KeepWf(k, s);
    match s
    case Local(id, op) => ChannelBounded(View(k, id), op);
    case Receive(accept) => ReceiveBounded(k, accept);
    case DeliverHeld => ChannelBounded(View(k, k.held.value.id), Deliver);
    case StallHeld => ChannelBounded(View(k, k.held.value.id), Stall);
    case _ =>
  }

  /** There is room in the shared queue below 16 messages towards the client and 64 back, in a channel below 64 and 8 frames. */
  lemma Capacities(k: Link, id: u32, item: Item)
    requires Wf(k) && id in k.lanes && IsJunk(item)
    ensures StepEnabled(k, InjectFrame(id, item)) <==> |k.queue| < if k.dir.Down? then 16 else 64
    ensures StepEnabled(k, DeliverHeld) <==>
              k.held.Some? && k.held.value.id in k.lanes &&
              var d := View(k, k.held.value.id).drain; d.rx && |d.chan| < if k.dir.Down? then 64 else 8
  {
    hide Project;
  }

  // ---- every frame is meant for somebody ----

  /** A message belongs to a stream that has been opened, or to a flow of another kind, or to nobody. */
  predicate AddressedOne(k: Link, m: Message) {
    var h := Decode(k.dir, m);
    h.Some? && h.value.id !in k.lanes ==> h.value.id in k.others && !IsLead(h.value.item)
  }

  predicate Addressed(k: Link) {
    forall m :: m in Messages(k) ==> AddressedOne(k, m)
  }

  /** No step sends a frame for an id that was never drawn, and none but the broker's Open opens a stream. */
  lemma KeepAddressed(k: Link, s: Step)
    requires Wf(k) && Addressed(k) && StepEnabled(k, s)
    ensures Addressed(StepApply(k, s))
  {
    hide Project, Decode, Encode, Fits, Apply, Enabled, Route;
    KeepWf(k, s);
    var k' := StepApply(k, s);
    if s.PushFrame? {
      var l := k.lanes[s.id];
      DecodeEncode(k.dir, l.kind, s.id, l.source.pend[0]);
    } else if s.InjectFrame? {
      JunkFits(k.dir, k.lanes[s.id].kind, s.item);
      DecodeEncode(k.dir, k.lanes[s.id].kind, s.id, s.item);
    }
    forall m | m in Messages(k')
      ensures AddressedOne(k', m)
    {
      assert m in Messages(k) ==> AddressedOne(k, m);
    }
  }
}
