/**
 * Nothing the machine can do is there in name only: every label, with every argument it may carry, is possible at the
 * end of some session.
 */
module Occurrences {
  import opened Bytes
  import opened Items
  import opened Lanes
  import opened Links
  import opened HttpHead
  import opened Tunnel
  import opened Transparency
  import opened Deliveries
  import opened Bursts
  import Frames
  import OpenMetas

  ghost predicate Happens(l: Label) {
    exists run :: Session(run) && Guard(After(INIT, run), l)
  }

  lemma At(s: Tunnel, l: Label)
    requires Reaches(INIT, s) && s.issued <= ID_SPACE && Guard(s, l)
    ensures Happens(l)
  {
    hide Possible, After, Guard;
    var run :| Possible(INIT, run) && After(INIT, run) == s;
    assert Session(run);
  }

  lemma ConnAt(d: Lane, u: Lane, a: ConnStep)
    requires Facing(d, u) && Reaches(INIT, Scene(Idle(d), Idle(u))) && ConnGuard(d, u, true, a)
    ensures Happens(Conn(1, a))
  {
    hide Reaches, ConnGuard, View;
    Lanes1(d, u);
    At(Scene(Idle(d), Idle(u)), Conn(1, a));
  }

  lemma TaskAt(d: Lane, u: Lane, a: TaskStep)
    requires Facing(d, u) && Reaches(INIT, Scene(Idle(d), Idle(u))) && TaskGuard(d, u, true, a)
    ensures Happens(Task(1, a))
  {
    hide Reaches, TaskGuard, View;
    Lanes1(d, u);
    At(Scene(Idle(d), Idle(u)), Task(1, a));
  }

  // ---- scenes ----

  /** A visitor of a TCP stream, and a client that has dialled for it. */
  lemma Dialled()
    ensures Reaches(INIT, Scene(Idle(Calm(Down, [])), Idle(Calm(Up, [])))) && Facing(Calm(Down, []), Calm(Up, []))
  {
    hide Reaches;
    Opens(OpenMetas.Tcp, []);
    assert Opened(OpenMetas.Tcp, []) == Calm(Down, []);
    AckUp(INIT, Calm(Down, []));
  }

  /** A piece of the answer is in the channel, or in the writer's hand. */
  function Offered(data: seq<byte>): Lane {
    var u := Calm(Up, []);
    u.(source := u.source.(read := data), drain := u.drain.(chan := [Chunk(data)]))
  }

  function InHand(data: seq<byte>): Lane {
    var u := Offered(data);
    u.(drain := u.drain.(chan := [], cur := data))
  }

  lemma Offers(data: seq<byte>)
    requires 0 < |data| <= Frames.MAX_FRAME_PAYLOAD
    ensures Reaches(INIT, Scene(Idle(Calm(Down, [])), Idle(Offered(data)))) && Facing(Calm(Down, []), Offered(data))
    ensures Reaches(INIT, Scene(Idle(Calm(Down, [])), Idle(InHand(data)))) && Facing(Calm(Down, []), InHand(data))
  {
    hide Reaches;
    Dialled();
    var d := Calm(Down, []);
    Deliveries.Reads(INIT, d, OpenMetas.Tcp, [], data);
    assert [] + data == data;
    var p := Pending(OpenMetas.Tcp, [], data);
    SendsUp(INIT, d, p, Chunk(data));
    assert p.(source := p.source.(pend := []), drain := p.drain.(chan := [Chunk(data)])) == Offered(data);
    ConnDoes(INIT, d, Offered(data), ConnStep.Take, Op.Take);
    assert Apply(Offered(data), Op.Take) == InHand(data);
  }

  /** A piece of the request is in the channel of the stream task. */
  function Brought(data: seq<byte>): Lane {
    var d := Calm(Down, []);
    d.(source := d.source.(read := data), drain := d.drain.(chan := [Chunk(data)]))
  }

  lemma Brings(data: seq<byte>)
    requires 0 < |data| <= DATA_CHUNK_MAX
    ensures Reaches(INIT, Scene(Idle(Brought(data)), Idle(Calm(Up, [])))) && Facing(Brought(data), Calm(Up, []))
  {
    hide Reaches;
    Dialled();
    var d, u := Calm(Down, []), Calm(Up, []);
    assert Chunks(data, DATA_CHUNK_MAX) == [Chunk(data)];
    CutVisitor(d, data);
    ConnDoes(INIT, d, u, ConnStep.Read(data), Op.Read(data, [Chunk(data)]));
    assert [] + data == data;
    var d1 := d.(source := d.source.(read := data, pend := [Chunk(data)]));
    NoLeads([Chunk(data)]);
    assert Apply(d, Op.Read(data, [Chunk(data)])) == d1;
    SendsDown(INIT, d1, u, Chunk(data));
    assert d1.(source := d1.source.(pend := []), drain := d1.drain.(chan := [Chunk(data)])) == Brought(data);
  }

  /** The shortest response head there is. */
  const HEAD: seq<byte> := [72, 84, 84, 80, 47, 13, 10, 13, 10]

  lemma HeadIsWhole()
    ensures HeadEnd(HEAD) == Some(|HEAD|) && LooksRight(CLIENT, HEAD)
  {
    hide HeadEnd;
    forall p: nat | p + 4 < 9
      ensures !BlankLine(HEAD, p)
    {
      assert HEAD[p..p + 4][0] == HEAD[p] != 13;
    }
    assert HEAD[5..9] == [13, 10, 13, 10];
    FirstBlankLine(HEAD, 9);
  }

  lemma AnswerEnds()
    ensures Reaches(INIT, Scene(Idle(Asked([])), Idle(Ended(OpenMetas.Http, Up, HEAD))))
  {
    hide Reaches, HeadEnd;
    HeadIsWhole();
    AnswerArrives([], HEAD);
    EndUp(INIT, Asked([]), OpenMetas.Http, HEAD);
  }

  // ---- a visitor's connection ----

  function Zeros(n: nat): seq<byte> {
    seq(n, _ => 0)
  }

  /** What the socket calls themselves rule out: a read that returns nothing, and a write of nothing or of more than a frame. */
  predicate ConnMay(a: ConnStep) {
    (a.Read? ==> a.data != []) && (a.Write? ==> 0 < a.n <= Frames.MAX_FRAME_PAYLOAD)
  }

  lemma ConnHappens(a: ConnStep)
    requires ConnMay(a)
    ensures Happens(Conn(1, a))
  {
    hide Reaches, Happens;
    match a
    case Take => WriterHappens(a);
    case Write(n) => WriterHappens(a);
    case WriteFail => WriterHappens(a);
    case Push =>
      Accepts1(OpenMetas.Tcp, []);
      ConnAt(StartDown(OpenMetas.Tcp, []), StartUp(OpenMetas.Tcp), a);
    case Stop => ResponseHappens(a);
    case Upgrade => ResponseHappens(a);
    case UpgradeEnd => UpgradeEnds();
    case Hangup => ResponseHappens(a);
    case Leave => Leaves();
    case _ =>
      WritesHead([]);
      ConnAt(Asked([]), StartUp(OpenMetas.Http), a);
  }

  /** What the writer of a TCP connection does. */
  lemma WriterHappens(a: ConnStep)
    requires ConnMay(a) && (a.Take? || a.Write? || a.WriteFail?)
    ensures Happens(Conn(1, a))
  {
    hide Reaches, Happens;
    match a
    case Take =>
      Offers([0]);
      ConnAt(Calm(Down, []), Offered([0]), a);
    case Write(n) =>
      Offers(Zeros(n));
      ConnAt(Calm(Down, []), InHand(Zeros(n)), a);
    case WriteFail =>
      Offers([0]);
      ConnAt(Calm(Down, []), InHand([0]), a);
  }

  /** What the handler of a request does with its response. */
  lemma ResponseHappens(a: ConnStep)
    requires a.Stop? || a.Upgrade? || a.Hangup?
    ensures Happens(Conn(1, a))
  {
    hide Reaches, Happens, HeadEnd;
    match a
    case Stop =>
      HeadIsWhole();
      HeadComes([], HEAD);
      ConnAt(Asked([]), HeadInHand(HEAD), a);
    case Upgrade =>
      HeadIsWhole();
      AnswerArrives([], HEAD);
      ConnAt(Asked([]), Quiescent(OpenMetas.Http, Up, HEAD), a);
    case Hangup =>
      AnswerEnds();
      ConnAt(Asked([]), Ended(OpenMetas.Http, Up, HEAD), a);
  }

  lemma Leaves()
    ensures Happens(Conn(1, ConnStep.Leave))
  {
    hide Reaches, Happens;
    Dialled();
    var d := Calm(Down, []);
    EndUp(INIT, d, OpenMetas.Tcp, []);
    ConnAt(d, Ended(OpenMetas.Tcp, Up, []), ConnStep.Leave);
  }

  /** The visitor's bytes end and, after its connection was upgraded, the client is told so. */
  lemma UpgradeEnds()
    ensures Happens(Conn(1, UpgradeEnd))
  {
    hide Reaches, Happens, HeadEnd;
    HeadIsWhole();
    AnswerArrives([], HEAD);
    var d, u := Asked([]), Quiescent(OpenMetas.Http, Up, HEAD);
    ConnDoes(INIT, d, u, Eof, Finish([]));
    var d1 := d.(source := d.source.(ended := true));
    assert Apply(d, Finish([])) == d1;
    Upgrades(d1, u);
    ConnAt(d1, Upgraded(), UpgradeEnd);
  }

  function Upgraded(): Lane {
    var u := Quiescent(OpenMetas.Http, Up, HEAD);
    u.(drain := u.drain.(sink := Stopped, rx := false))
  }

  lemma Upgrades(d: Lane, u: Lane)
    requires u == Quiescent(OpenMetas.Http, Up, HEAD) && Facing(d, u) && Reaches(INIT, Scene(Idle(d), Idle(u)))
    ensures Reaches(INIT, Scene(Idle(d), Idle(Upgraded()))) && Facing(d, Upgraded())
  {
    hide Reaches, View, StepEnabled, StepApply;
    var s := Scene(Idle(d), Idle(u));
    Lanes1(d, u);
    assert Guard(s, Conn(1, Upgrade));
    var u1 := u.(drain := u.drain.(sink := Stopped));
    LocalStep(u, Op.Stop);
    assert Apply(u, Op.Stop) == u1;
    LocalStep(u1, CloseRx);
    assert Apply(u1, CloseRx) == Upgraded();
    NoSteps(Idle(d));
    TwoSteps(Idle(u), Local(1, Op.Stop), Local(1, CloseRx));
    assert Next(s, Conn(1, Upgrade)) == Scene(Idle(d), Idle(Upgraded()));
    ThenDoes(INIT, s, Conn(1, Upgrade));
  }

  lemma TwoSteps(k: Link, a: Step, b: Step)
    requires StepEnabled(k, a) && StepEnabled(StepApply(k, a), b)
    ensures RunSteps(k, [a, b]) == StepApply(StepApply(k, a), b)
  {
    hide StepEnabled, StepApply;
    assert [a, b][1..] == [b];
    RunOne(StepApply(k, a), b);
  }

  // ---- a stream task ----

  predicate TaskMay(t: TaskStep) {
    (t.LocalRead? ==> 0 < |t.data| <= Frames.MAX_FRAME_PAYLOAD) && (t.LocalEnd? ==> t.code == CLOSE_OK || t.code == CLOSE_APP_ERROR) &&
    (t.Output? ==> 0 < t.n <= DATA_CHUNK_MAX)
  }

  lemma TaskHappens(t: TaskStep)
    requires TaskMay(t)
    ensures Happens(Task(1, t))
  {
    hide Reaches, Happens, HeadEnd;
    match t
    case LocalRead(data) =>
      Dialled();
      TaskAt(Calm(Down, []), Calm(Up, []), t);
    case LocalEnd(code) =>
      Dialled();
      TaskAt(Calm(Down, []), Calm(Up, []), t);
    case ShakeFail(twice) =>
      WritesHead([]);
      TaskAt(Asked([]), StartUp(OpenMetas.Http), t);
    case AckTimeout =>
      HeadIsWhole();
      Answers([], HEAD);
      TaskAt(Asked([]), Acknowledged(HEAD), t);
    case Queue =>
      HeadIsWhole();
      Answers([], HEAD);
      TaskAt(Asked([]), Acknowledged(HEAD), t);
    case Fetch =>
      Brings([0]);
      TaskAt(Brought([0]), Calm(Up, []), t);
    case Output(n) => Puts(n, t);
    case OutputFail => Puts(1, t);
    case Fade => Fades();
    case _ =>
      Opens(OpenMetas.Tcp, []);
      TaskAt(Opened(OpenMetas.Tcp, []), StartUp(OpenMetas.Tcp), t);
  }

  lemma Puts(n: nat, t: TaskStep)
    requires 0 < n <= DATA_CHUNK_MAX && (t == Output(n) || t.OutputFail?)
    ensures Happens(Task(1, t))
  {
    hide Reaches, Happens;
    Dialled();
    Gives(INIT, [], Calm(Up, []), Zeros(n));
    TaskAt(Given([], Zeros(n)), Calm(Up, []), t);
  }

  /** The task of a TCP stream is aborted; the reader it has spawned ends later. */
  lemma Fades()
    ensures Happens(Task(1, Fade))
  {
    hide Reaches, View, StepEnabled, StepApply;
    var d, u := Calm(Down, []), Calm(Up, []);
    Dialled();
    Lanes1(d, u);
    var s := Scene(Idle(d), Idle(u));
    assert Guard(s, Task(1, TaskStep.Detach));
    var d1 := d.(drain := d.drain.(entry := Gone));
    var d2 := d1.(drain := d1.drain.(rx := false, sink := Stopped));
    LocalStep(d, Op.Clear);
    assert Apply(d, Op.Clear) == d1;
    LocalStep(d1, CloseRx);
    assert Apply(d1, CloseRx) == d2;
    NoSteps(Idle(u));
    TwoSteps(Idle(d), Local(1, Op.Clear), Local(1, CloseRx));
    assert [Local(1, Op.Clear)] + [Local(1, CloseRx)] == [Local(1, Op.Clear), Local(1, CloseRx)];
    assert Next(s, Task(1, TaskStep.Detach)) == Scene(Idle(d2), Idle(u));
    ThenDoes(INIT, s, Task(1, TaskStep.Detach));
    TaskAt(d2, u, Fade);
  }

  // ---- the loops ----

  /** Nine pieces of an answer, one more than a channel holds. */
  const NINE: seq<seq<byte>> := [[0], [0], [0], [0], [0], [0], [0], [0], [0]]

  /** What may share the queues: nothing a loop routes, or a frame of the one id drawn for something else. */
  predicate LoopMay(a: LoopStep) {
    (a.DownForeign? ==> Strange(Down, a.m)) && (a.UpForeign? ==> Strange(Up, a.m))
  }

  predicate Strange(dir: Dir, m: Message) {
    var h := Links.Decode(dir, m);
    h.Some? ==> h.value.id == 1 && !h.value.item.Lead?
  }

  lemma LoopHappens(a: LoopStep)
    requires LoopMay(a)
    ensures Happens(Loop(a))
  {
    hide Happens, Strange;
    match a
    case BrokerReceive => BrokerReceives();
    case BrokerDeliver => BrokerDelivers();
    case BrokerDrop => BrokerDrops();
    case BrokerStall => BrokerStalls();
    case StallClose => StallTold(a);
    case StallGiveUp => StallTold(a);
    case ClientReceive(accept) => ClientReceives(accept);
    case ClientRefuse => ClientRefuses();
    case ClientDeliver => ClientDelivers();
    case ClientDrop => ClientDrops();
    case DownTransmit => DownTransmits();
    case UpTransmit => UpTransmits();
    case DownForeign(m) => Strangers(a, Down, m);
    case UpForeign(m) => Strangers(a, Up, m);
  }

  lemma Strangers(a: LoopStep, dir: Dir, m: Message)
    requires Strange(dir, m) && a == if dir.Down? then DownForeign(m) else UpForeign(m)
    ensures Happens(Loop(a))
  {
    hide Reaches, Links.Decode;
    Stay(INIT);
    RunOne(INIT.down, Reserve(1));
    RunOne(INIT.up, Reserve(1));
    ThenDoes(INIT, INIT, DrawId);
    At(Next(INIT, DrawId), Loop(a));
  }

  lemma BrokerReceives()
    ensures Happens(Loop(BrokerReceive))
  {
    hide Reaches, Encode;
    Begins([[0]]);
    SendOne(INIT, [[0]], 0);
    At(Burst([[0]], 1, 0, 0, false), Loop(BrokerReceive));
  }

  /** A frame in the broker's hand. */
  lemma HeldUp(d: Lane, u: Lane, net: seq<Message>, f: Item)
    requires Facing(d, u) && Reaches(INIT, Scene(Idle(d), Only(u, [], net, Some(Held(1, f)))))
    ensures Happens(Loop(BrokerStall))
    ensures u.drain.rx && |u.drain.chan| < 8 ==> Happens(Loop(BrokerDeliver))
    ensures !u.drain.rx ==> Happens(Loop(BrokerDrop))
  {
    hide Reaches, Project, Happens;
    var s := Scene(Idle(d), Only(u, [], net, Some(Held(1, f))));
    ViewOnly(u, [], net, Some(Held(1, f)));
    At(s, Loop(BrokerStall));
    if u.drain.rx && |u.drain.chan| < 8 {
      At(s, Loop(BrokerDeliver));
    }
    if !u.drain.rx {
      At(s, Loop(BrokerDrop));
    }
  }

  lemma BrokerDelivers()
    ensures Happens(Loop(BrokerDeliver))
  {
    hide Reaches, Encode, Happens, Flat;
    Rises(NINE);
    WritesOne(INIT, NINE, 9, 0, 8, true);
    HeldUp(Calm(Down, []), Reply(NINE, Flat(NINE[..9]), 1, 8), OnWire(NINE[9..9]), Chunk(NINE[8]));
  }

  lemma BrokerStalls()
    ensures Happens(Loop(BrokerStall))
  {
    hide Reaches, Encode, Happens, Flat;
    Rises(NINE);
    HeldUp(Calm(Down, []), Reply(NINE, Flat(NINE[..9]), 0, 8), OnWire(NINE[9..9]), Chunk(NINE[8]));
  }

  /** The connection's handler goes while the loop waits to put a frame into its channel. */
  lemma BrokerDrops()
    ensures Happens(Loop(BrokerDrop))
  {
    hide Reaches, Encode, Happens, Flat;
    Rises(NINE);
    var d, u, net, f := Calm(Down, []), Reply(NINE, Flat(NINE[..9]), 0, 8), OnWire(NINE[9..9]), Chunk(NINE[8]);
    ConnActs(INIT, d, u, net, Some(Held(1, f)), ConnStep.Detach, CloseRx);
    HeldUp(d, Apply(u, CloseRx), net, f);
  }

  lemma StallTold(a: LoopStep)
    requires a.StallClose? || a.StallGiveUp?
    ensures Happens(Loop(a))
  {
    hide Reaches, Encode, Happens, Flat;
    Rises(NINE);
    OwesClose(Calm(Down, []), Reply(NINE, Flat(NINE[..9]), 0, 8), OnWire(NINE[9..9]), Chunk(NINE[8]), a);
  }

  lemma OwesClose(d: Lane, u: Lane, net: seq<Message>, f: Item, a: LoopStep)
    requires Facing(d, u) && u.drain.entry.Live? && Reaches(INIT, Scene(Idle(d), Only(u, [], net, Some(Held(1, f)))))
    requires a.StallClose? || a.StallGiveUp?
    ensures Happens(Loop(a))
  {
    hide Reaches, Happens;
    Waits(INIT, d, u, net, f);
    At(Scene(Idle(d), Only(u.(drain := u.drain.(entry := Gone)), [], net, None)).(stalled := Some(1)), Loop(a));
  }

  lemma ClientReceives(accept: bool)
    ensures Happens(Loop(ClientReceive(accept)))
  {
    hide Reaches, Encode;
    OpenArrives(OpenMetas.Tcp, []);
    var d := Shifted(StartDown(OpenMetas.Tcp, []));
    At(Scene(Only(d, [], [Encode(Down, OpenMetas.Tcp, 1, Lead([]))], None), Idle(StartUp(OpenMetas.Tcp))), Loop(ClientReceive(accept)));
  }

  lemma ClientRefuses()
    ensures Happens(Loop(ClientRefuse))
  {
    hide Reaches, Encode;
    var d, u := Shifted(StartDown(OpenMetas.Tcp, [])), StartUp(OpenMetas.Tcp);
    OpenArrives(OpenMetas.Tcp, []);
    assert [Lead([])][1..] == [];
    OwesReject(INIT, d, u, OpenMetas.Tcp, []);
    var e := d.(drain := d.drain.(entry := Gone, sink := Stopped, rx := false));
    At(Scene(Idle(e), Idle(u)).(refusing := Some(1)), Loop(ClientRefuse));
  }

  /** The request is regularly over, and the loop has its Close in hand. */
  function EndHeld(): Link {
    var d := Calm(Down, []);
    var f := End(CLOSE_OK);
    Only(d.(source := d.source.(ended := true), drain := d.drain.(entry := Gone)), [], [], Some(Held(1, f)))
  }

  lemma HoldsEnd()
    ensures Reaches(INIT, Scene(EndHeld(), Idle(Calm(Up, []))))
  {
    hide Reaches, StepEnabled, StepApply, View, Encode;
    Dialled();
    var d, u, f := Calm(Down, []), Calm(Up, []), End(CLOSE_OK);
    ConnDoes(INIT, d, u, Eof, Finish([f]));
    var d1 := d.(source := d.source.(pend := [f], ended := true));
    assert Apply(d, Finish([f])) == d1;
    PushStep(d1);
    PushGuard(d1, u);
    DoesDown(INIT, Idle(d1), Idle(u), Conn(1, ConnStep.Push), PushFrame(1));
    assert [f][1..] == [];
    HoldsDown(INIT, Shifted(d1), u, f);
  }

  /** A frame in the client's hand. */
  lemma HeldDown(d: Lane, u: Lane, f: Item)
    requires Facing(d, u) && Reaches(INIT, Scene(Only(d, [], [], Some(Held(1, f))), Idle(u)))
    ensures d.drain.rx && |d.drain.chan| < 64 ==> Happens(Loop(ClientDeliver))
    ensures !d.drain.rx ==> Happens(Loop(ClientDrop))
  {
    hide Reaches, Project, Happens;
    var s := Scene(Only(d, [], [], Some(Held(1, f))), Idle(u));
    ViewOnly(d, [], [], Some(Held(1, f)));
    if d.drain.rx && |d.drain.chan| < 64 {
      At(s, Loop(ClientDeliver));
    }
    if !d.drain.rx {
      At(s, Loop(ClientDrop));
    }
  }

  lemma ClientDelivers()
    ensures Happens(Loop(ClientDeliver))
  {
    hide Reaches, Happens;
    HoldsEnd();
    HeldDown(EndHeld().lanes[1], Calm(Up, []), End(CLOSE_OK));
  }

  /** And the stream task is aborted before the loop can hand it over. */
  lemma ClientDrops()
    ensures Happens(Loop(ClientDrop))
  {
    hide Reaches, Happens;
    HoldsEnd();
    var d, u := EndHeld().lanes[1], Calm(Up, []);
    Aborted(d, u, End(CLOSE_OK));
    HeldDown(Apply(d, CloseRx), u, End(CLOSE_OK));
  }

  lemma Aborted(d: Lane, u: Lane, f: Item)
    requires Facing(d, u) && Reaches(INIT, Scene(Only(d, [], [], Some(Held(1, f))), Idle(u)))
    requires d.kind.Tcp? && d.drain.entry.Gone? && HasTask(d)
    ensures Reaches(INIT, Scene(Only(Apply(d, CloseRx), [], [], Some(Held(1, f))), Idle(u))) && Facing(Apply(d, CloseRx), u)
  {
    hide Reaches, Project, StepEnabled, StepApply;
    var held := Some(Held(1, f));
    var k := Only(d, [], [], held);
    var s := Scene(k, Idle(u));
    ViewOnly(d, [], [], held);
    ViewOnly(u, [], [], None);
    LocalStepOn(d, [], held, CloseRx);
    assert Unenter(1, View(k, 1)) + [Local(1, CloseRx)] == [Local(1, CloseRx)];
    assert Guard(s, Task(1, TaskStep.Detach));
    DoesDown(INIT, k, Idle(u), Task(1, TaskStep.Detach), Local(1, CloseRx));
  }

  lemma DownTransmits()
    ensures Happens(Loop(DownTransmit))
  {
    hide Reaches, Encode;
    var d, u := StartDown(OpenMetas.Tcp, []), StartUp(OpenMetas.Tcp);
    Accepts1(OpenMetas.Tcp, []);
    PushStep(d);
    PushGuard(d, u);
    DoesDown(INIT, Idle(d), Idle(u), Conn(1, ConnStep.Push), PushFrame(1));
    At(Scene(Only(Shifted(d), [Encode(Down, OpenMetas.Tcp, 1, Lead([]))], [], None), Idle(u)), Loop(DownTransmit));
  }

  lemma UpTransmits()
    ensures Happens(Loop(UpTransmit))
  {
    hide Reaches, Encode;
    Dialled();
    var d, u, f := Calm(Down, []), Pending(OpenMetas.Tcp, [], [0]), Chunk([0]);
    Deliveries.Reads(INIT, d, OpenMetas.Tcp, [], [0]);
    assert Idle(u) == Only(u, [], [], None);
    Queues(INIT, d, u, [], f);
    At(Scene(Idle(d), Only(Shifted(u), [Encode(Up, OpenMetas.Tcp, 1, f)], [], None)), Loop(UpTransmit));
  }

  // ---- all of them ----

  predicate May(l: Label) {
    match l
    case Accept(kind, head) => !kind.Udp? && |head| <= OpenMetas.MAX_HEAD && (head != [] ==> kind.Http?)
    case DrawId => true
    case Conn(id, a) => id == 1 && ConnMay(a)
    case Task(id, t) => id == 1 && TaskMay(t)
    case Loop(a) => LoopMay(a)
  }

  lemma EveryLabelHappens(l: Label)
    requires May(l)
    ensures Happens(l)
  {
    hide Reaches, Happens, ConnMay, TaskMay, LoopMay;
    match l
    case Accept(kind, head) =>
      Stay(INIT);
      At(INIT, l);
    case DrawId =>
      Stay(INIT);
      At(INIT, l);
    case Conn(id, a) => ConnHappens(a);
    case Task(id, t) => TaskHappens(t);
    case Loop(a) => LoopHappens(a);
  }
}
