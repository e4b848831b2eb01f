/**
 * Sessions that exist: runs of the whole machine in which everything arrives, and runs in which an early Close
 * overtakes bytes that were read. Together with `Transparency` they say which Close code promises what.
 */
module Deliveries {
  import opened Bytes
  import opened Items
  import opened Lanes
  import opened Links
  import opened HttpHead
  import opened Tunnel
  import opened Transparency
  import Frames
  import OpenMetas

  // ---- a session with one stream ----

  /** One direction: the lane of stream 1, the shared queue, the socket, and what the loop holds. */
  function Only(l: Lane, queue: seq<Message>, net: seq<Message>, held: Option<Held>): Link {
    Link(l.dir, queue, net, held, map[1 := l], {})
  }

  /** Nothing on its way. */
  function Idle(l: Lane): Link {
    Only(l, [], [], None)
  }

  function Scene(down: Link, up: Link): Tunnel {
    Tunnel(1, down, up, None, None)
  }

  predicate Bare(l: Lane) {
    l.created && l.flow == [] && l.hold == []
  }

  lemma ViewOnly(l: Lane, queue: seq<Message>, net: seq<Message>, held: Option<Held>)
    ensures var v := View(Only(l, queue, net, held), 1);
            v == l.(flow := Project(l.dir, 1, net + queue), hold := HeldBy(Only(l, queue, net, held), 1))
    ensures Bare(l) ==> View(Idle(l), 1) == l
  {
  }

  // ---- reaching one state from another ----

  ghost predicate Reaches(s: Tunnel, e: Tunnel) {
    exists run :: Possible(s, run) && After(s, run) == e
  }

  lemma Stay(s: Tunnel)
    ensures Reaches(s, s)
  {
    assert Possible(s, []) && After(s, []) == s;
  }

  lemma {:induction false} Chain(s: Tunnel, a: seq<Label>, b: seq<Label>)
    requires Possible(s, a) && Possible(After(s, a), b)
    ensures Possible(s, a + b) && After(s, a + b) == After(After(s, a), b)
    decreases |a|
  {
    hide Guard, Next;
    if a == [] {
      assert a + b == b;
    } else {
      Chain(Next(s, a[0]), a[1..], b);
      assert (a + b)[0] == a[0] && (a + b)[1..] == a[1..] + b;
    }
  }

  lemma Then(s: Tunnel, m: Tunnel, e: Tunnel)
    requires Reaches(s, m) && Reaches(m, e)
    ensures Reaches(s, e)
  {
    hide Possible, After;
    var a :| Possible(s, a) && After(s, a) == m;
    var b :| Possible(m, b) && After(m, b) == e;
    Chain(s, a, b);
  }

  lemma Does(s: Tunnel, l: Label)
    requires Guard(s, l)
    ensures Reaches(s, Next(s, l))
  {
    hide Guard, Next;
    assert [l][0] == l && [l][1..] == [];
    assert Possible(Next(s, l), []) && After(Next(s, l), []) == Next(s, l);
    assert Possible(s, [l]) && After(s, [l]) == Next(s, l);
  }

  lemma ThenDoes(s: Tunnel, m: Tunnel, l: Label)
    requires Reaches(s, m) && Guard(m, l)
    ensures Reaches(s, Next(m, l))
  {
    hide Reaches, Guard, Next;
    Does(m, l);
    Then(s, m, Next(m, l));
  }

  /** Labels that touch neither the id counter nor what a loop is about to answer. */
  predicate Plain(l: Label) {
    l.Conn? || l.Task? ||
    (l.Loop? && (l.loop == ClientReceive(true) || l.loop.BrokerReceive? || l.loop.BrokerDeliver? || l.loop.ClientDeliver? ||
                 l.loop.DownTransmit? || l.loop.UpTransmit?))
  }

  lemma NoSteps(k: Link)
    ensures RunSteps(k, []) == k
  {
  }

  /** A label that is one step of the request direction. */
  lemma DoesDown(start: Tunnel, down: Link, up: Link, l: Label, st: Step)
    requires Reaches(start, Scene(down, up)) && Plain(l) && Guard(Scene(down, up), l) && StepEnabled(down, st)
    requires DownSteps(Scene(down, up), l) == [st] && UpSteps(Scene(down, up), l) == []
    ensures Reaches(start, Scene(StepApply(down, st), up))
  {
    hide Reaches, Guard, DownSteps, UpSteps, StepEnabled, StepApply, RunSteps;
    var s := Scene(down, up);
    RunOne(down, st);
    NoSteps(up);
    assert Rejected(down, true) == None;
    assert Next(s, l) == Scene(StepApply(down, st), up);
    ThenDoes(start, s, l);
  }

  /** A label that is one step of the reply direction. */
  lemma DoesUp(start: Tunnel, down: Link, up: Link, l: Label, st: Step)
    requires Reaches(start, Scene(down, up)) && Plain(l) && Guard(Scene(down, up), l) && StepEnabled(up, st)
    requires DownSteps(Scene(down, up), l) == [] && UpSteps(Scene(down, up), l) == [st]
    ensures Reaches(start, Scene(down, StepApply(up, st)))
  {
    hide Reaches, Guard, DownSteps, UpSteps, StepEnabled, StepApply, RunSteps;
    var s := Scene(down, up);
    RunOne(up, st);
    NoSteps(down);
    assert Rejected(down, true) == None;
    assert Next(s, l) == Scene(down, StepApply(up, st));
    ThenDoes(start, s, l);
  }

  // ---- the steps of a link with one stream ----

  lemma LocalStep(l: Lane, op: Op)
    requires Bare(l) && IsLocal(op) && Enabled(l, op)
    requires op.Read? || op.Finish? ==> AllFit(l.dir, l.kind, op.items)
    ensures StepEnabled(Idle(l), Local(1, op)) && StepApply(Idle(l), Local(1, op)) == Idle(Apply(l, op)) && Bare(Apply(l, op))
  {
    hide Project, Enabled, Apply, Fits;
    ViewOnly(l, [], [], None);
    LocalFrame(l, op);
  }

  /** After the first of the frames a task has cut was queued. */
  function Shifted(l: Lane): Lane
    requires l.source.pend != []
  {
    l.(source := l.source.(pend := l.source.pend[1..]))
  }

  lemma PushStep(l: Lane)
    requires Bare(l) && l.source.pend != [] && Fits(l.dir, l.kind, l.source.pend[0])
    ensures var f := l.source.pend[0];
            && StepEnabled(Idle(l), PushFrame(1))
            && StepApply(Idle(l), PushFrame(1)) == Only(Shifted(l), [Encode(l.dir, l.kind, 1, f)], [], None)
  {
    hide Project, Fits, Encode;
  }

  lemma InjectStep(l: Lane, f: Item)
    requires Bare(l) && IsJunk(f)
    ensures Fits(l.dir, l.kind, f)
    ensures StepEnabled(Idle(l), InjectFrame(1, f))
    ensures StepApply(Idle(l), InjectFrame(1, f)) == Only(l, [Encode(l.dir, l.kind, 1, f)], [], None)
  {
    hide Project, Encode;
  }

  lemma TransmitStep(l: Lane, m: Message)
    ensures StepEnabled(Only(l, [m], [], None), Transmit)
    ensures StepApply(Only(l, [m], [], None), Transmit) == Only(l, [], [m], None)
  {
  }

  /** What the receiving loop makes of an item. */
  function Dealt(l: Lane, f: Item): Link {
    var r := Route(l.dir, l.drain, f, true);
    Only(l.(drain := r.drain), [], [], if r.hold == [] then None else Some(Held(1, r.hold[0])))
  }

  lemma ReceiveStep(l: Lane, f: Item)
    requires Bare(l) && Fits(l.dir, l.kind, f)
    ensures var k := Only(l, [], [Encode(l.dir, l.kind, 1, f)], None);
            StepEnabled(k, Receive(true)) && StepApply(k, Receive(true)) == Dealt(l, f)
  {
    hide Project, Fits, Encode, Decode, Route;
    DecodeEncode(l.dir, l.kind, 1, f);
  }

  lemma DeliverStep(l: Lane, f: Item)
    requires Bare(l) && l.drain.rx && |l.drain.chan| < ChanCap(l.dir)
    ensures var k := Only(l, [], [], Some(Held(1, f)));
            && StepEnabled(k, DeliverHeld)
            && StepApply(k, DeliverHeld) == Idle(l.(drain := l.drain.(chan := l.drain.chan + [f])))
  {
    ViewOnly(l, [], [], Some(Held(1, f)));
  }

  // ---- a frame on its way to the client ----

  predicate Facing(d: Lane, u: Lane) {
    Bare(d) && Bare(u) && d.dir.Down? && u.dir.Up? && d.kind == u.kind
  }

  lemma Lanes1(d: Lane, u: Lane)
    requires Facing(d, u)
    ensures var s := Scene(Idle(d), Idle(u)); D(s, 1) == d && U(s, 1) == u && 1 in s.up.lanes && 1 in s.down.lanes
    ensures Room(Idle(d)) && Room(Idle(u))
  {
    hide Project;
    ViewOnly(d, [], [], None);
    ViewOnly(u, [], [], None);
  }

  /** From the queue through the socket into the hand of the client's loop. */
  lemma HoldsDown(start: Tunnel, d: Lane, u: Lane, f: Item)
    requires Bare(d) && d.dir.Down? && Bare(u) && u.dir.Up? && Fits(Down, d.kind, f)
    requires Reaches(start, Scene(Only(d, [Encode(Down, d.kind, 1, f)], [], None), Idle(u)))
    requires (f.Chunk? || f.End?) && d.drain.entry.Live?
    ensures var d' := d.(drain := d.drain.(entry := if f.End? then Gone else Live));
            Reaches(start, Scene(Only(d', [], [], Some(Held(1, f))), Idle(u)))
  {
    hide Reaches, Project, Fits, Encode, StepEnabled, StepApply, Guard;
    var m := Encode(Down, d.kind, 1, f);
    var up := Idle(u);
    TransmitStep(d, m);
    GuardTransmit(Scene(Only(d, [m], [], None), up));
    DoesDown(start, Only(d, [m], [], None), up, Loop(DownTransmit), Transmit);
    ReceiveStep(d, f);
    GuardReceive(Scene(Only(d, [], [m], None), up));
    DoesDown(start, Only(d, [], [m], None), up, Loop(ClientReceive(true)), Receive(true));
    var d' := d.(drain := d.drain.(entry := if f.End? then Gone else Live));
    assert Dealt(d, f) == Only(d', [], [], Some(Held(1, f)));
  }

  /** And from there into the channel of an open stream. */
  lemma RidesDown(start: Tunnel, d: Lane, u: Lane, f: Item)
    requires Bare(d) && d.dir.Down? && Bare(u) && u.dir.Up? && Fits(Down, d.kind, f)
    requires Reaches(start, Scene(Only(d, [Encode(Down, d.kind, 1, f)], [], None), Idle(u)))
    requires (f.Chunk? || f.End?) && d.drain.entry.Live? && d.drain.rx && d.drain.chan == []
    ensures Reaches(start, Scene(Idle(d.(drain := d.drain.(entry := if f.End? then Gone else Live, chan := [f]))), Idle(u)))
  {
    hide Reaches, Project, Fits, Encode, StepEnabled, StepApply, Guard;
    HoldsDown(start, d, u, f);
    var d' := d.(drain := d.drain.(entry := if f.End? then Gone else Live));
    var k := Only(d', [], [], Some(Held(1, f)));
    DeliverStep(d', f);
    GuardDeliver(Scene(k, Idle(u)));
    DoesDown(start, k, Idle(u), Loop(ClientDeliver), DeliverHeld);
    assert [] + [f] == [f];
  }

  lemma GuardTransmit(s: Tunnel)
    ensures s.down.queue != [] ==> Guard(s, Loop(DownTransmit))
    ensures s.up.queue != [] ==> Guard(s, Loop(UpTransmit))
  {
  }

  lemma GuardReceive(s: Tunnel)
    ensures s.refusing.None? && StepEnabled(s.down, Receive(true)) ==> Guard(s, Loop(ClientReceive(true)))
    ensures s.stalled.None? && StepEnabled(s.up, Receive(true)) ==> Guard(s, Loop(BrokerReceive))
  {
    hide StepEnabled;
  }

  lemma GuardDeliver(s: Tunnel)
    ensures StepEnabled(s.down, DeliverHeld) ==> Guard(s, Loop(ClientDeliver))
  {
    hide StepEnabled;
  }

  /** And from the queue into the channel of the broker's stream. */
  lemma RidesUp(start: Tunnel, d: Lane, u: Lane, f: Item)
    requires Bare(d) && d.dir.Down? && Bare(u) && u.dir.Up? && Fits(Up, u.kind, f)
    requires Reaches(start, Scene(Idle(d), Only(u, [Encode(Up, u.kind, 1, f)], [], None)))
    requires u.drain.entry.Live? && u.drain.rx && u.drain.chan == []
    ensures Reaches(start, Scene(Idle(d), Idle(u.(drain := u.drain.(chan := [f])))))
  {
    hide Reaches, Project, Fits, Encode, StepEnabled, StepApply, Guard;
    var m := Encode(Up, u.kind, 1, f);
    var down := Idle(d);
    TransmitStep(u, m);
    GuardTransmit(Scene(down, Only(u, [m], [], None)));
    DoesUp(start, down, Only(u, [m], [], None), Loop(UpTransmit), Transmit);
    ReceiveStep(u, f);
    GuardReceive(Scene(down, Only(u, [], [m], None)));
    DoesUp(start, down, Only(u, [], [m], None), Loop(BrokerReceive), Receive(true));
    assert [] + [f] == [f];
    assert Dealt(u, f) == Idle(u.(drain := u.drain.(chan := [f])));
  }

  // ---- one task's own step ----

  lemma ConnDoes(start: Tunnel, d: Lane, u: Lane, a: ConnStep, op: Op)
    requires Facing(d, u) && Reaches(start, Scene(Idle(d), Idle(u))) && ConnGuard(d, u, true, a) && IsLocal(op)
    requires op.Read? || op.Finish? ==> AllFit(Down, d.kind, op.items)
    ensures ConnDown(1, d, a) == [Local(1, op)] && ConnUp(1, u, a) == [] && Enabled(d, op) ==>
              Reaches(start, Scene(Idle(Apply(d, op)), Idle(u))) && Facing(Apply(d, op), u)
    ensures ConnDown(1, d, a) == [] && ConnUp(1, u, a) == [Local(1, op)] && Enabled(u, op) && !op.Read? && !op.Finish? ==>
              Reaches(start, Scene(Idle(d), Idle(Apply(u, op)))) && Facing(d, Apply(u, op))
  {
    hide Reaches, ConnGuard, ConnDown, ConnUp, StepEnabled, StepApply, Enabled, Apply, Fits, View;
    Lanes1(d, u);
    var s := Scene(Idle(d), Idle(u));
    assert Guard(s, Conn(1, a));
    if ConnDown(1, d, a) == [Local(1, op)] && ConnUp(1, u, a) == [] && Enabled(d, op) {
      LocalStep(d, op);
      LocalFrame(d, op);
      DoesDown(start, Idle(d), Idle(u), Conn(1, a), Local(1, op));
    }
    if ConnDown(1, d, a) == [] && ConnUp(1, u, a) == [Local(1, op)] && Enabled(u, op) && !op.Read? && !op.Finish? {
      LocalStep(u, op);
      LocalFrame(u, op);
      DoesUp(start, Idle(d), Idle(u), Conn(1, a), Local(1, op));
    }
  }

  lemma TaskDoes(start: Tunnel, d: Lane, u: Lane, a: TaskStep, op: Op)
    requires Facing(d, u) && Reaches(start, Scene(Idle(d), Idle(u))) && TaskGuard(d, u, true, a) && IsLocal(op)
    requires op.Read? || op.Finish? ==> AllFit(Up, u.kind, op.items)
    ensures TaskDown(1, d, u, a) == [Local(1, op)] && TaskUp(1, u, a) == [] && Enabled(d, op) && !op.Read? && !op.Finish? ==>
              Reaches(start, Scene(Idle(Apply(d, op)), Idle(u))) && Facing(Apply(d, op), u)
    ensures TaskDown(1, d, u, a) == [] && TaskUp(1, u, a) == [Local(1, op)] && Enabled(u, op) ==>
              Reaches(start, Scene(Idle(d), Idle(Apply(u, op)))) && Facing(d, Apply(u, op))
  {
    hide Reaches, TaskGuard, TaskDown, TaskUp, StepEnabled, StepApply, Enabled, Apply, Fits, View;
    Lanes1(d, u);
    var s := Scene(Idle(d), Idle(u));
    assert Guard(s, Task(1, a));
    if TaskDown(1, d, u, a) == [Local(1, op)] && TaskUp(1, u, a) == [] && Enabled(d, op) && !op.Read? && !op.Finish? {
      LocalStep(d, op);
      LocalFrame(d, op);
      DoesDown(start, Idle(d), Idle(u), Task(1, a), Local(1, op));
    }
    if TaskDown(1, d, u, a) == [] && TaskUp(1, u, a) == [Local(1, op)] && Enabled(u, op) {
      LocalStep(u, op);
      LocalFrame(u, op);
      DoesUp(start, Idle(d), Idle(u), Task(1, a), Local(1, op));
    }
  }

  /** The visitor's side queues the frame it has cut, and it rides to the client's channel. */
  lemma SendsDown(start: Tunnel, d: Lane, u: Lane, f: Item)
    requires Facing(d, u) && Reaches(start, Scene(Idle(d), Idle(u))) && d.source.pend == [f] && Fits(Down, d.kind, f)
    requires (f.Chunk? || f.End?) && d.drain.entry.Live? && d.drain.rx && d.drain.chan == []
    ensures var d' := d.(source := d.source.(pend := []), drain := d.drain.(entry := if f.End? then Gone else Live, chan := [f]));
            Reaches(start, Scene(Idle(d'), Idle(u))) && Facing(d', u)
  {
    hide Reaches, StepEnabled, StepApply, Fits, View, Encode;
    Lanes1(d, u);
    PushStep(d);
    var s := Scene(Idle(d), Idle(u));
    assert Guard(s, Conn(1, ConnStep.Push));
    DoesDown(start, Idle(d), Idle(u), Conn(1, ConnStep.Push), PushFrame(1));
    assert [f][1..] == [];
    RidesDown(start, Shifted(d), u, f);
  }

  /** The stream task queues the frame it has cut, and it rides to the broker's channel. */
  lemma SendsUp(start: Tunnel, d: Lane, u: Lane, f: Item)
    requires Facing(d, u) && Reaches(start, Scene(Idle(d), Idle(u))) && u.source.pend == [f] && Fits(Up, u.kind, f)
    requires u.drain.entry.Live? && u.drain.rx && u.drain.chan == []
    ensures var u' := u.(source := u.source.(pend := []), drain := u.drain.(chan := [f]));
            Reaches(start, Scene(Idle(d), Idle(u'))) && Facing(d, u')
  {
    hide Reaches, StepEnabled, StepApply, Fits, View, Encode;
    Lanes1(d, u);
    PushStep(u);
    var s := Scene(Idle(d), Idle(u));
    assert Guard(s, Task(1, Queue));
    DoesUp(start, Idle(d), Idle(u), Task(1, Queue), PushFrame(1));
    assert [f][1..] == [];
    RidesUp(start, d, Shifted(u), f);
  }

  // ---- opening ----

  /** The lane of a request after its Open frame has been dealt with. */
  function Opened(kind: OpenMetas.StreamKind, head: seq<byte>): Lane {
    StartDown(kind, head).(source := NO_SOURCE.(led := true, read := head),
                           drain := Drain(Live, [], true, Running, head, [], true, None))
  }

  lemma Accepts1(kind: OpenMetas.StreamKind, head: seq<byte>)
    requires !kind.Udp? && Fits(Down, kind, Lead(head))
    ensures Reaches(INIT, Scene(Idle(StartDown(kind, head)), Idle(StartUp(kind))))
    ensures Facing(StartDown(kind, head), StartUp(kind))
  {
    hide Fits, Inv;
    var l := Accept(kind, head);
    Stay(INIT);
    InitInv();
    AcceptReady(INIT, kind, head);
    RunOne(INIT.down, Create(1, StartDown(kind, head)));
    RunOne(INIT.up, Create(1, StartUp(kind)));
    ThenDoes(INIT, INIT, l);
    assert map[][1 := StartDown(kind, head)] == map[1 := StartDown(kind, head)];
    assert Next(INIT, l) == Scene(Idle(StartDown(kind, head)), Idle(StartUp(kind)));
  }

  /** A visitor connects and the client has a stream task for it. */
  lemma Opens(kind: OpenMetas.StreamKind, head: seq<byte>)
    requires !kind.Udp? && Fits(Down, kind, Lead(head))
    ensures Reaches(INIT, Scene(Idle(Opened(kind, head)), Idle(StartUp(kind)))) && Facing(Opened(kind, head), StartUp(kind))
  {
    hide Reaches, StepEnabled, StepApply, Fits, View, Encode, Guard;
    var d, u := StartDown(kind, head), StartUp(kind);
    var f := Lead(head);
    Accepts1(kind, head);
    Lanes1(d, u);
    PushStep(d);
    PushGuard(d, u);
    DoesDown(INIT, Idle(d), Idle(u), Conn(1, ConnStep.Push), PushFrame(1));
    assert [f][1..] == [];
    var d' := Shifted(d);
    var m := Encode(Down, kind, 1, f);
    TransmitStep(d', m);
    GuardTransmit(Scene(Only(d', [m], [], None), Idle(u)));
    DoesDown(INIT, Only(d', [m], [], None), Idle(u), Loop(DownTransmit), Transmit);
    ReceiveStep(d', f);
    GuardReceive(Scene(Only(d', [], [m], None), Idle(u)));
    DoesDown(INIT, Only(d', [], [m], None), Idle(u), Loop(ClientReceive(true)), Receive(true));
    assert Dealt(d', f) == Idle(Opened(kind, head));
  }

  lemma PushGuard(d: Lane, u: Lane)
    requires Facing(d, u) && d.source.pend != []
    ensures Guard(Scene(Idle(d), Idle(u)), Conn(1, ConnStep.Push))
  {
    hide View;
    Lanes1(d, u);
  }

  // ---- a TCP stream that is carried to the end ----

  /** Between two pieces: all that was read has been written. */
  function Calm(dir: Dir, sent: seq<byte>): Lane {
    Quiescent(OpenMetas.Tcp, dir, sent)
  }

  function Quiescent(kind: OpenMetas.StreamKind, dir: Dir, sent: seq<byte>): Lane {
    Lane(dir, kind, true, NO_SOURCE.(led := true, read := sent), [], [],
         Drain(Live, [], true, Running, [], sent, true, None))
  }

  /** After a regular Close. The client takes the entry off its table when it meets it; the broker leaves that to a guard. */
  function Closed(dir: Dir, sent: seq<byte>): Lane {
    Ended(OpenMetas.Tcp, dir, sent)
  }

  function Ended(kind: OpenMetas.StreamKind, dir: Dir, sent: seq<byte>): Lane {
    var l := Quiescent(kind, dir, sent);
    l.(source := l.source.(ended := true),
       drain := l.drain.(entry := if dir.Down? then Gone else Live, sink := Stopped, fin := Some(CLOSE_OK)))
  }

  /** A piece is read, queued, received and taken: the stream task is about to write it. */
  function Given(sent: seq<byte>, data: seq<byte>): Lane {
    var d := Calm(Down, sent);
    d.(source := d.source.(read := sent + data), drain := d.drain.(cur := data))
  }

  lemma Gives(start: Tunnel, sent: seq<byte>, u: Lane, data: seq<byte>)
    requires Facing(Calm(Down, sent), u) && Reaches(start, Scene(Idle(Calm(Down, sent)), Idle(u)))
    requires 0 < |data| <= DATA_CHUNK_MAX
    ensures Reaches(start, Scene(Idle(Given(sent, data)), Idle(u))) && Facing(Given(sent, data), u)
  {
    hide Reaches;
    var d := Calm(Down, sent);
    assert Chunks(data, DATA_CHUNK_MAX) == [Chunk(data)];
    CutVisitor(d, data);
    ConnDoes(start, d, u, ConnStep.Read(data), Op.Read(data, [Chunk(data)]));
    var d1 := d.(source := d.source.(read := sent + data, pend := [Chunk(data)]));
    NoLeads([Chunk(data)]);
    assert Apply(d, Op.Read(data, [Chunk(data)])) == d1;
    SendsDown(start, d1, u, Chunk(data));
    var d2 := d1.(source := d1.source.(pend := []), drain := d1.drain.(chan := [Chunk(data)]));
    TaskDoes(start, d2, u, Fetch, Op.Take);
    assert Apply(d2, Op.Take) == Given(sent, data);
  }

  lemma PieceDown(start: Tunnel, sent: seq<byte>, u: Lane, data: seq<byte>)
    requires Facing(Calm(Down, sent), u) && Reaches(start, Scene(Idle(Calm(Down, sent)), Idle(u)))
    requires 0 < |data| <= DATA_CHUNK_MAX
    ensures Reaches(start, Scene(Idle(Calm(Down, sent + data)), Idle(u)))
  {
    hide Reaches;
    Gives(start, sent, u, data);
    var d := Given(sent, data);
    TaskDoes(start, d, u, Output(|data|), Op.Write(|data|));
    assert data[..|data|] == data && data[|data|..] == [];
    assert Apply(d, Op.Write(|data|)) == Calm(Down, sent + data);
  }

  lemma EndDown(start: Tunnel, sent: seq<byte>, u: Lane)
    requires Facing(Calm(Down, sent), u) && Reaches(start, Scene(Idle(Calm(Down, sent)), Idle(u)))
    ensures Reaches(start, Scene(Idle(Closed(Down, sent)), Idle(u)))
  {
    hide Reaches;
    var d := Calm(Down, sent);
    var f := End(CLOSE_OK);
    ConnDoes(start, d, u, Eof, Finish([f]));
    var d1 := d.(source := d.source.(pend := [f], ended := true));
    assert Apply(d, Finish([f])) == d1;
    SendsDown(start, d1, u, f);
    var d2 := d1.(source := d1.source.(pend := []), drain := d1.drain.(entry := Gone, chan := [f]));
    TaskDoes(start, d2, u, Fetch, Op.Take);
    assert Apply(d2, Op.Take) == Closed(Down, sent);
  }

  /** The stream task has dialled and says so. */
  lemma AckUp(start: Tunnel, d: Lane)
    requires Facing(d, StartUp(OpenMetas.Tcp)) && HasTask(d) && Reaches(start, Scene(Idle(d), Idle(StartUp(OpenMetas.Tcp))))
    ensures Reaches(start, Scene(Idle(d), Idle(Calm(Up, []))))
  {
    hide Reaches;
    var u := StartUp(OpenMetas.Tcp);
    var f := Lead([]);
    One(f);
    TaskDoes(start, d, u, TcpAck, Op.Read([], [f]));
    var u1 := u.(source := u.source.(led := true, pend := [f]));
    assert Apply(u, Op.Read([], [f])) == u1;
    SendsUp(start, d, u1, f);
    var u2 := u1.(source := u1.source.(pend := []), drain := u1.drain.(chan := [f]));
    ConnDoes(start, d, u2, ConnStep.Take, Op.Take);
    assert Apply(u2, Op.Take) == Calm(Up, []);
  }

  /** The stream task has read a piece from the local service and cut it. */
  function Pending(kind: OpenMetas.StreamKind, sent: seq<byte>, data: seq<byte>): Lane {
    var u := Quiescent(kind, Up, sent);
    u.(source := u.source.(read := sent + data, pend := [Chunk(data)]))
  }

  lemma Reads(start: Tunnel, d: Lane, kind: OpenMetas.StreamKind, sent: seq<byte>, data: seq<byte>)
    requires Facing(d, Quiescent(kind, Up, sent)) && HasTask(d) && (kind.Http? ==> d.drain.cur == [])
    requires Reaches(start, Scene(Idle(d), Idle(Quiescent(kind, Up, sent)))) && 0 < |data| <= Frames.MAX_FRAME_PAYLOAD
    ensures Reaches(start, Scene(Idle(d), Idle(Pending(kind, sent, data)))) && Facing(d, Pending(kind, sent, data))
  {
    hide Reaches;
    var u := Quiescent(kind, Up, sent);
    assert Chunks(data, Frames.MAX_FRAME_PAYLOAD) == [Chunk(data)];
    CutPlain(u, data);
    TaskDoes(start, d, u, LocalRead(data), Op.Read(data, [Chunk(data)]));
    NoLeads([Chunk(data)]);
    assert Apply(u, Op.Read(data, [Chunk(data)])) == Pending(kind, sent, data);
  }

  lemma PieceUp(start: Tunnel, d: Lane, kind: OpenMetas.StreamKind, sent: seq<byte>, data: seq<byte>)
    requires Facing(d, Quiescent(kind, Up, sent)) && HasTask(d) && (kind.Http? ==> d.drain.cur == [])
    requires Reaches(start, Scene(Idle(d), Idle(Quiescent(kind, Up, sent)))) && 0 < |data| <= Frames.MAX_FRAME_PAYLOAD
    ensures Reaches(start, Scene(Idle(d), Idle(Quiescent(kind, Up, sent + data))))
  {
    hide Reaches;
    Reads(start, d, kind, sent, data);
    var u1 := Pending(kind, sent, data);
    SendsUp(start, d, u1, Chunk(data));
    var u2 := u1.(source := u1.source.(pend := []), drain := u1.drain.(chan := [Chunk(data)]));
    ConnDoes(start, d, u2, ConnStep.Take, Op.Take);
    var u3 := u2.(drain := u2.drain.(chan := [], cur := data));
    assert Apply(u2, Op.Take) == u3;
    ConnDoes(start, d, u3, ConnStep.Write(|data|), Op.Write(|data|));
    assert data[..|data|] == data && data[|data|..] == [];
    assert Apply(u3, Op.Write(|data|)) == Quiescent(kind, Up, sent + data);
  }

  lemma EndUp(start: Tunnel, d: Lane, kind: OpenMetas.StreamKind, sent: seq<byte>)
    requires Facing(d, Quiescent(kind, Up, sent)) && HasTask(d) && (kind.Http? ==> d.drain.cur == [])
    requires Reaches(start, Scene(Idle(d), Idle(Quiescent(kind, Up, sent))))
    ensures Reaches(start, Scene(Idle(d), Idle(Ended(kind, Up, sent))))
  {
    hide Reaches;
    var u := Quiescent(kind, Up, sent);
    var f := End(CLOSE_OK);
    TaskDoes(start, d, u, LocalEnd(CLOSE_OK), Finish([f]));
    var u1 := u.(source := u.source.(pend := [f], ended := true));
    assert Apply(u, Finish([f])) == u1;
    SendsUp(start, d, u1, f);
    var u2 := u1.(source := u1.source.(pend := []), drain := u1.drain.(chan := [f]));
    ConnDoes(start, d, u2, ConnStep.Take, Op.Take);
    assert Apply(u2, Op.Take) == Ended(kind, Up, sent);
  }

  predicate Cut(pieces: seq<seq<byte>>, max: nat) {
    forall p :: p in pieces ==> 0 < |p| <= max
  }

  lemma {:induction false} AllDown(start: Tunnel, sent: seq<byte>, u: Lane, pieces: seq<seq<byte>>)
    requires Facing(Calm(Down, sent), u) && Reaches(start, Scene(Idle(Calm(Down, sent)), Idle(u)))
    requires Cut(pieces, DATA_CHUNK_MAX)
    ensures Reaches(start, Scene(Idle(Calm(Down, sent + Flat(pieces))), Idle(u)))
    decreases |pieces|
  {
    hide Reaches;
    if pieces == [] {
      assert sent + Flat(pieces) == sent;
    } else {
      assert pieces[0] in pieces;
      PieceDown(start, sent, u, pieces[0]);
      AllDown(start, sent + pieces[0], u, pieces[1..]);
      Join(sent, pieces[0], Flat(pieces[1..]));
    }
  }

  lemma {:induction false} AllUp(start: Tunnel, d: Lane, kind: OpenMetas.StreamKind, sent: seq<byte>, pieces: seq<seq<byte>>)
    requires Facing(d, Quiescent(kind, Up, sent)) && HasTask(d) && (kind.Http? ==> d.drain.cur == [])
    requires Reaches(start, Scene(Idle(d), Idle(Quiescent(kind, Up, sent)))) && Cut(pieces, Frames.MAX_FRAME_PAYLOAD)
    ensures Reaches(start, Scene(Idle(d), Idle(Quiescent(kind, Up, sent + Flat(pieces)))))
    decreases |pieces|
  {
    hide Reaches;
    if pieces == [] {
      assert sent + Flat(pieces) == sent;
    } else {
      assert pieces[0] in pieces;
      PieceUp(start, d, kind, sent, pieces[0]);
      AllUp(start, d, kind, sent + pieces[0], pieces[1..]);
      Join(sent, pieces[0], Flat(pieces[1..]));
    }
  }

  /** A run to a state of one stream, told by what its two sockets saw. */
  lemma AsSession(d: Lane, u: Lane) returns (run: seq<Label>)
    requires Facing(d, u) && Reaches(INIT, Scene(Idle(d), Idle(u)))
    ensures Session(run) && D(After(INIT, run), 1) == d && U(After(INIT, run), 1) == u
    ensures Seen(INIT, run, 1) == Traffic(d.source.read, d.drain.out, u.source.read, u.drain.out)
  {
    hide Possible, After, View, Seen, TunnelInv, Inv;
    run :| Possible(INIT, run) && After(INIT, run) == Scene(Idle(d), Idle(u));
    Lanes1(d, u);
    Endpoints(run, 1);
  }

  /** The stream has ended regularly in both directions and no write has failed. */
  predicate EndedWell(s: Tunnel, id: u32) {
    var d, u := D(s, id).drain, U(s, id).drain;
    d.fin == Some(CLOSE_OK) && u.fin == Some(CLOSE_OK) && d.ok && u.ok
  }

  /**
   * Whatever two TCP peers say to each other, in whatever pieces a read can return: there is a session in which
   * each hears all of what the other said and both ends are regular.
   */
  lemma Conversation(asked: seq<seq<byte>>, told: seq<seq<byte>>)
    requires Cut(asked, DATA_CHUNK_MAX) && Cut(told, Frames.MAX_FRAME_PAYLOAD)
    ensures exists run ::
              && Session(run) && EndedWell(After(INIT, run), 1)
              && Seen(INIT, run, 1) == Traffic(Flat(asked), Flat(asked), Flat(told), Flat(told))
  {
    hide Reaches, Possible, After, Seen, View;
    var u := StartUp(OpenMetas.Tcp);
    Opens(OpenMetas.Tcp, []);
    assert Opened(OpenMetas.Tcp, []) == Calm(Down, []);
    AckUp(INIT, Calm(Down, []));
    AllDown(INIT, [], Calm(Up, []), asked);
    assert [] + Flat(asked) == Flat(asked) && [] + Flat(told) == Flat(told);
    var d := Calm(Down, Flat(asked));
    AllUp(INIT, d, OpenMetas.Tcp, [], told);
    EndUp(INIT, d, OpenMetas.Tcp, Flat(told));
    EndDown(INIT, Flat(asked), Closed(Up, Flat(told)));
    var run := AsSession(Closed(Down, Flat(asked)), Closed(Up, Flat(told)));
    assert Session(run) && EndedWell(After(INIT, run), 1);
  }

  // ---- a Close that overtakes ----

  /** An HTTP request whose head has been written to the local service. */
  function Asked(head: seq<byte>): Lane {
    var d := Opened(OpenMetas.Http, head);
    d.(drain := d.drain.(cur := [], out := head))
  }

  lemma WritesHead(head: seq<byte>)
    requires |head| <= OpenMetas.MAX_HEAD
    ensures Reaches(INIT, Scene(Idle(Asked(head)), Idle(StartUp(OpenMetas.Http))))
  {
    hide Reaches;
    var d, u := Opened(OpenMetas.Http, head), StartUp(OpenMetas.Http);
    Opens(OpenMetas.Http, head);
    if head == [] {
      assert d == Asked(head);
    } else {
      TaskDoes(INIT, d, u, Output(|head|), Op.Write(|head|));
      assert [] + head[..|head|] == head && head[|head|..] == [];
      assert Apply(d, Op.Write(|head|)) == Asked(head);
    }
  }

  /** The local service answers with a head, in one read, and the stream task acknowledges it. */
  lemma Answers(head: seq<byte>, answer: seq<byte>)
    requires |head| <= OpenMetas.MAX_HEAD && |answer| <= 1024 && HeadEnd(answer) == Some(|answer|) && LooksRight(CLIENT, answer)
    ensures Reaches(INIT, Scene(Idle(Asked(head)), Idle(Acknowledged(answer)))) && Facing(Asked(head), Acknowledged(answer))
  {
    hide Reaches, HeadEnd, LooksRight, EndsAt;
    WritesHead(head);
    var d, u := Asked(head), StartUp(OpenMetas.Http);
    EndsWithin(answer, |answer|);
    assert u.source.uncut + answer == answer && answer[..|answer|] == answer && answer[|answer|..] == [];
    NoChunks(Frames.MAX_FRAME_PAYLOAD);
    var items := [Lead(answer)];
    assert [Lead(answer)] + [] == items;
    CutHead(u, answer, |answer|);
    TaskDoes(INIT, d, u, LocalRead(answer), Op.Read(answer, items));
    One(Lead(answer));
    assert Apply(u, Op.Read(answer, items)) == Acknowledged(answer);
  }

  function Acknowledged(answer: seq<byte>): Lane {
    var u := StartUp(OpenMetas.Http);
    u.(source := u.source.(led := true, read := answer, pend := [Lead(answer)]))
  }

  /** The head of the answer in the hand of the visitor's connection. */
  function HeadInHand(answer: seq<byte>): Lane {
    var u := StartUp(OpenMetas.Http);
    u.(source := u.source.(led := true, read := answer), drain := u.drain.(sink := Running, cur := answer))
  }

  lemma HeadComes(head: seq<byte>, answer: seq<byte>)
    requires |head| <= OpenMetas.MAX_HEAD && |answer| <= 1024 && HeadEnd(answer) == Some(|answer|) && LooksRight(CLIENT, answer)
    ensures Reaches(INIT, Scene(Idle(Asked(head)), Idle(HeadInHand(answer)))) && Facing(Asked(head), HeadInHand(answer))
  {
    hide Reaches, HeadEnd, LooksRight, EndsAt;
    Answers(head, answer);
    var d, u, f := Asked(head), Acknowledged(answer), Lead(answer);
    SendsUp(INIT, d, u, f);
    var u1 := u.(source := u.source.(pend := []), drain := u.drain.(chan := [f]));
    ConnDoes(INIT, d, u1, ConnStep.Take, Op.Take);
    assert Apply(u1, Op.Take) == HeadInHand(answer);
  }

  lemma AnswerArrives(head: seq<byte>, answer: seq<byte>)
    requires |head| <= OpenMetas.MAX_HEAD && |answer| <= 1024 && HeadEnd(answer) == Some(|answer|) && LooksRight(CLIENT, answer)
    ensures Reaches(INIT, Scene(Idle(Asked(head)), Idle(Quiescent(OpenMetas.Http, Up, answer))))
  {
    hide Reaches, HeadEnd, LooksRight, EndsAt;
    EndsWithin(answer, |answer|);
    HeadComes(head, answer);
    var d, u := Asked(head), HeadInHand(answer);
    ConnDoes(INIT, d, u, ConnStep.Write(|answer|), Op.Write(|answer|));
    assert answer[..|answer|] == answer && answer[|answer|..] == [] && [] + answer == answer;
    assert Apply(u, Op.Write(|answer|)) == Quiescent(OpenMetas.Http, Up, answer);
  }

  /**
   * An HTTP exchange: for any request head, any response head that looks right and any pieces of a body there is a session
   * in which the local service gets the one, the visitor the others, and the response ends regularly.
   */
  lemma Exchange(head: seq<byte>, answer: seq<byte>, body: seq<seq<byte>>)
    requires |head| <= OpenMetas.MAX_HEAD && |answer| <= 1024 && HeadEnd(answer) == Some(|answer|) && LooksRight(CLIENT, answer)
    requires Cut(body, Frames.MAX_FRAME_PAYLOAD)
    ensures exists run :: EndsBy(Up, run, 1, CLOSE_OK) &&
                          Seen(INIT, run, 1) == Traffic(head, head, answer + Flat(body), answer + Flat(body))
  {
    hide Reaches, Possible, After, Seen, View, HeadEnd, LooksRight;
    AnswerArrives(head, answer);
    var d := Asked(head);
    AllUp(INIT, d, OpenMetas.Http, answer, body);
    EndUp(INIT, d, OpenMetas.Http, answer + Flat(body));
    var run := AsSession(d, Ended(OpenMetas.Http, Up, answer + Flat(body)));
    assert EndsBy(Up, run, 1, CLOSE_OK);
  }

  /** The pump has a piece of the body in its hand while the connection tells the client that it gives up. */
  lemma Overtakes(head: seq<byte>, data: seq<byte>)
    requires |head| <= OpenMetas.MAX_HEAD && data != []
    ensures var d := Asked(head);
            var d' := d.(source := d.source.(read := head + data, pend := Chunks(data, DATA_CHUNK_MAX)),
                         drain := d.drain.(entry := Gone, chan := [End(CLOSE_APP_ERROR)]));
            Reaches(INIT, Scene(Idle(d'), Idle(StartUp(OpenMetas.Http))))
  {
    hide Reaches, Encode, Chunks, StepEnabled, StepApply;
    WritesHead(head);
    var d, u := Asked(head), StartUp(OpenMetas.Http);
    var items := Chunks(data, DATA_CHUNK_MAX);
    CutVisitor(d, data);
    NoLeads(items);
    ConnDoes(INIT, d, u, ConnStep.Read(data), Op.Read(data, items));
    var d1 := d.(source := d.source.(read := head + data, pend := items));
    assert Apply(d, Op.Read(data, items)) == d1;
    var f := End(CLOSE_APP_ERROR);
    InjectStep(d1, f);
    TellGuard(d1, u);
    DoesDown(INIT, Idle(d1), Idle(u), Conn(1, Tell), InjectFrame(1, f));
    RidesDown(INIT, d1, u, f);
  }

  lemma TellGuard(d: Lane, u: Lane)
    requires Facing(d, u) && u.kind.Http? && u.drain.rx
    ensures Guard(Scene(Idle(d), Idle(u)), Conn(1, Tell))
  {
    hide View;
    Lanes1(d, u);
  }

  /** So a request can end with code 1 and no failed write while its body, whatever it was, never arrives. */
  lemma BodyOvertaken(head: seq<byte>, data: seq<byte>)
    requires |head| <= OpenMetas.MAX_HEAD && data != []
    ensures exists run :: EndsBy(Down, run, 1, CLOSE_APP_ERROR) && Seen(INIT, run, 1) == Traffic(head + data, head, [], [])
  {
    hide Reaches, Possible, After, Seen, View, Chunks;
    Overtakes(head, data);
    var u := StartUp(OpenMetas.Http);
    var d := Asked(head);
    var d1 := d.(source := d.source.(read := head + data, pend := Chunks(data, DATA_CHUNK_MAX)),
                 drain := d.drain.(entry := Gone, chan := [End(CLOSE_APP_ERROR)]));
    var d2 := d1.(drain := d1.drain.(chan := [], sink := Stopped, fin := Some(CLOSE_APP_ERROR)));
    TaskDoes(INIT, d1, u, Fetch, Op.Take);
    assert Apply(d1, Op.Take) == d2;
    var run := AsSession(d2, u);
    assert EndsBy(Down, run, 1, CLOSE_APP_ERROR);
  }

  /** A label that is one step of either direction. */
  lemma DoesBoth(start: Tunnel, down: Link, up: Link, l: Label, st: Step, st': Step)
    requires Reaches(start, Scene(down, up)) && Plain(l) && Guard(Scene(down, up), l)
    requires StepEnabled(down, st) && StepEnabled(up, st')
    requires DownSteps(Scene(down, up), l) == [st] && UpSteps(Scene(down, up), l) == [st']
    ensures Reaches(start, Scene(StepApply(down, st), StepApply(up, st')))
  {
    hide Reaches, Guard, DownSteps, UpSteps, StepEnabled, StepApply, RunSteps;
    var s := Scene(down, up);
    RunOne(down, st);
    RunOne(up, st');
    assert Rejected(down, true) == None;
    assert Next(s, l) == Scene(StepApply(down, st), StepApply(up, st'));
    ThenDoes(start, s, l);
  }

  /** The local service stops reading while the stream task still has a piece of its answer in hand. */
  lemma WriteFails(start: Tunnel, d: Lane, u: Lane)
    requires Facing(d, u) && Reaches(start, Scene(Idle(d), Idle(u))) && u.kind.Tcp?
    requires d.drain.sink.Running? && d.drain.cur != [] && u.drain.entry.Live? && u.drain.rx && u.drain.chan == []
    ensures var d' := d.(drain := d.drain.(ok := false, cur := []));
            Reaches(start, Scene(Idle(d'), Idle(u.(drain := u.drain.(chan := [End(CLOSE_APP_ERROR)])))))
  {
    hide Reaches, Encode, StepEnabled, StepApply, View;
    Lanes1(d, u);
    var f := End(CLOSE_APP_ERROR);
    var op := Op.WriteFail(true);
    LocalStep(d, op);
    InjectStep(u, f);
    assert Guard(Scene(Idle(d), Idle(u)), Task(1, OutputFail));
    DoesBoth(start, Idle(d), Idle(u), Task(1, OutputFail), Local(1, op), InjectFrame(1, f));
    RidesUp(start, Apply(d, op), u, f);
  }

  /** And an answer, whatever it was, can be cut off in the same way. */
  lemma AnswerOvertaken(asked: seq<byte>, data: seq<byte>)
    requires 0 < |asked| <= DATA_CHUNK_MAX && 0 < |data| <= Frames.MAX_FRAME_PAYLOAD
    ensures exists run :: EndsBy(Up, run, 1, CLOSE_APP_ERROR) && Seen(INIT, run, 1) == Traffic(asked, [], data, [])
  {
    hide Reaches, Possible, After, Seen, View;
    Opens(OpenMetas.Tcp, []);
    assert Opened(OpenMetas.Tcp, []) == Calm(Down, []);
    AckUp(INIT, Calm(Down, []));
    Gives(INIT, [], Calm(Up, []), asked);
    assert [] + asked == asked && [] + data == data;
    var d, u := Given([], asked), Pending(OpenMetas.Tcp, [], data);
    Reads(INIT, d, OpenMetas.Tcp, [], data);
    WriteFails(INIT, d, u);
    var d1 := d.(drain := d.drain.(ok := false, cur := []));
    var u1 := u.(drain := u.drain.(chan := [End(CLOSE_APP_ERROR)]));
    ConnDoes(INIT, d1, u1, ConnStep.Take, Op.Take);
    var u2 := u.(drain := u.drain.(sink := Stopped, fin := Some(CLOSE_APP_ERROR)));
    assert Apply(u1, Op.Take) == u2;
    var run := AsSession(d1, u2);
    assert EndsBy(Up, run, 1, CLOSE_APP_ERROR);
  }

  // ---- a stream that is refused ----

  /** What the visitor's connection is left with: nothing got through, and the broker has been told. */
  function Turned(kind: OpenMetas.StreamKind): Lane {
    var u := StartUp(kind);
    u.(drain := u.drain.(sink := if kind.Http? then Stopped else Running))
  }

  /** The local service cannot be dialled, or breaks the handshake off: the client says so and nothing is passed on. */
  lemma DialRefused(kind: OpenMetas.StreamKind, head: seq<byte>)
    requires !kind.Udp? && Fits(Down, kind, Lead(head))
    ensures exists run :: Session(run) && Seen(INIT, run, 1) == Traffic(head, [], [], []) &&
                          U(After(INIT, run), 1).source.ended && U(After(INIT, run), 1).drain == Turned(kind).drain
  {
    hide Reaches, Possible, After, Seen, View;
    var d, u := Opened(kind, head), StartUp(kind);
    Opens(kind, head);
    TaskDoes(INIT, d, u, DialFail, Finish([Reject]));
    var u1 := u.(source := u.source.(pend := [Reject], ended := true));
    assert Apply(u, Finish([Reject])) == u1;
    SendsUp(INIT, d, u1, Reject);
    var u2 := u1.(source := u1.source.(pend := []), drain := u1.drain.(chan := [Reject]));
    ConnDoes(INIT, d, u2, ConnStep.Take, Op.Take);
    var u3 := u2.(drain := Turned(kind).drain);
    assert Apply(u2, Op.Take) == u3;
    var run := AsSession(d, u3);
  }

  /** A client without a target for the stream answers its Open frame with an OpenReject and enters nothing. */
  lemma NoTarget(kind: OpenMetas.StreamKind, head: seq<byte>)
    requires !kind.Udp? && Fits(Down, kind, Lead(head))
    ensures exists run :: Session(run) && Seen(INIT, run, 1) == Traffic(head, [], [], []) &&
                          D(After(INIT, run), 1).drain.entry.Gone? && U(After(INIT, run), 1).drain == Turned(kind).drain
  {
    hide Reaches, Possible, After, Seen, View, Encode;
    var d, u := StartDown(kind, head), StartUp(kind);
    OpenArrives(kind, head);
    Lanes1(d, u);
    var d' := Shifted(d);
    var e := d'.(drain := d'.drain.(entry := Gone, sink := Stopped, rx := false));
    RefusesOpen(INIT, d', u, kind, head);
    RidesUp(INIT, e, u, Reject);
    var u1 := u.(drain := u.drain.(chan := [Reject]));
    ConnDoes(INIT, e, u1, ConnStep.Take, Op.Take);
    var u2 := u1.(drain := Turned(kind).drain);
    assert Apply(u1, Op.Take) == u2;
    var run := AsSession(e, u2);
  }

  /** The Open frame has come through the socket and the client has not looked at it yet. */
  lemma OpenArrives(kind: OpenMetas.StreamKind, head: seq<byte>)
    requires !kind.Udp? && Fits(Down, kind, Lead(head))
    ensures var d := Shifted(StartDown(kind, head));
            Reaches(INIT, Scene(Only(d, [], [Encode(Down, kind, 1, Lead(head))], None), Idle(StartUp(kind)))) && Facing(d, StartUp(kind))
  {
    hide Reaches, StepEnabled, StepApply, Fits, View, Encode, Guard;
    var d, u := StartDown(kind, head), StartUp(kind);
    var m := Encode(Down, kind, 1, Lead(head));
    Accepts1(kind, head);
    Lanes1(d, u);
    PushStep(d);
    PushGuard(d, u);
    DoesDown(INIT, Idle(d), Idle(u), Conn(1, ConnStep.Push), PushFrame(1));
    assert [Lead(head)][1..] == [];
    var d' := Shifted(d);
    TransmitStep(d', m);
    GuardTransmit(Scene(Only(d', [m], [], None), Idle(u)));
    DoesDown(INIT, Only(d', [m], [], None), Idle(u), Loop(DownTransmit), Transmit);
  }

  /** The Open frame leaves the socket and opens nothing; the loop owes an OpenReject. */
  lemma OwesReject(start: Tunnel, d: Lane, u: Lane, kind: OpenMetas.StreamKind, head: seq<byte>)
    requires Facing(d, u) && d.kind == kind && Fits(Down, kind, Lead(head)) && d.drain == NO_DRAIN
    requires Reaches(start, Scene(Only(d, [], [Encode(Down, kind, 1, Lead(head))], None), Idle(u)))
    ensures var e := d.(drain := d.drain.(entry := Gone, sink := Stopped, rx := false));
            Reaches(start, Scene(Idle(e), Idle(u)).(refusing := Some(1))) && Facing(e, u)
  {
    hide Reaches, Fits, Encode, Project, Decode;
    var f := Lead(head);
    var k, e := Only(d, [], [Encode(Down, kind, 1, f)], None), d.(drain := d.drain.(entry := Gone, sink := Stopped, rx := false));
    DecodeEncode(Down, kind, 1, f);
    var s := Scene(k, Idle(u));
    assert StepEnabled(k, Receive(false)) && StepApply(k, Receive(false)) == Idle(e);
    RunOne(k, Receive(false));
    NoSteps(Idle(u));
    assert Next(s, Loop(ClientReceive(false))) == Scene(Idle(e), Idle(u)).(refusing := Some(1));
    ThenDoes(start, s, Loop(ClientReceive(false)));
  }

  lemma RefusesOpen(start: Tunnel, d: Lane, u: Lane, kind: OpenMetas.StreamKind, head: seq<byte>)
    requires Facing(d, u) && d.kind == kind && Fits(Down, kind, Lead(head)) && d.drain == NO_DRAIN
    requires Reaches(start, Scene(Only(d, [], [Encode(Down, kind, 1, Lead(head))], None), Idle(u)))
    ensures var e := d.(drain := d.drain.(entry := Gone, sink := Stopped, rx := false));
            Reaches(start, Scene(Idle(e), Only(u, [Encode(Up, u.kind, 1, Reject)], [], None))) && Facing(e, u)
  {
    hide Reaches, Fits, Encode, StepEnabled, StepApply;
    var e := d.(drain := d.drain.(entry := Gone, sink := Stopped, rx := false));
    OwesReject(start, d, u, kind, head);
    var m := Scene(Idle(e), Idle(u)).(refusing := Some(1));
    InjectStep(u, Reject);
    RunOne(Idle(u), InjectFrame(1, Reject));
    NoSteps(Idle(e));
    assert Next(m, Loop(ClientRefuse)) == Scene(Idle(e), Only(u, [Encode(Up, u.kind, 1, Reject)], [], None));
    ThenDoes(start, m, Loop(ClientRefuse));
  }

  // ---- what a Close code says ----

  function Sink(dir: Dir, run: seq<Label>, id: u32): Drain
    requires Session(run)
  {
    if dir.Down? then D(After(INIT, run), id).drain else U(After(INIT, run), id).drain
  }

  /** In this session stream `id` ends with `code` in direction `dir`, and no write has failed there. */
  predicate EndsBy(dir: Dir, run: seq<Label>, id: u32, code: byte) {
    Session(run) && Sink(dir, run, id).fin == Some(code) && Sink(dir, run, id).ok
  }

  predicate Arrived(dir: Dir, run: seq<Label>, id: u32)
    requires Session(run)
  {
    var seen := Seen(INIT, run, id);
    if dir.Down? then seen.localGot == seen.visitorSent else seen.visitorGot == seen.localSent
  }

  /** The codes with which a stream can end at all: two of the 256, in either direction. */
  lemma CodesInUse(dir: Dir, code: byte)
    ensures (exists run, id :: EndsBy(dir, run, id, code)) <==> code == CLOSE_OK || code == CLOSE_APP_ERROR
  {
    hide Possible, After, Seen, View;
    forall run, id | EndsBy(dir, run, id, code)
      ensures code == CLOSE_OK || code == CLOSE_APP_ERROR
    {
      UsualEnds(run, id);
    }
    if code == CLOSE_OK {
      Conversation([], []);
      var run :| Session(run) && EndedWell(After(INIT, run), 1);
      assert EndsBy(dir, run, 1, code);
    } else if code == CLOSE_APP_ERROR {
      BodyOvertaken([], [0]);
      AnswerOvertaken([0], [0]);
    }
  }

  /** And of these the regular one, and no other, says that everything has arrived. */
  lemma CompleteIffRegular(dir: Dir, code: byte)
    requires code == CLOSE_OK || code == CLOSE_APP_ERROR
    ensures (forall run, id :: EndsBy(dir, run, id, code) ==> Arrived(dir, run, id)) <==> code == CLOSE_OK
  {
    hide Possible, After, Seen, View;
    if code == CLOSE_OK {
      forall run, id | EndsBy(dir, run, id, code)
        ensures Arrived(dir, run, id)
      {
        VisitorToLocal(run, id);
        LocalToVisitor(run, id);
      }
    } else {
      BodyOvertaken([], [0]);
      AnswerOvertaken([0], [0]);
      var run :| EndsBy(dir, run, 1, code) && !Arrived(dir, run, 1);
    }
  }
}
