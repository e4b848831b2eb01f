/**
 * A burst: more frames on their way to a visitor than its channel holds, one of them in the loop's hand, and none lost.
 */
module Bursts {
  import opened Bytes
  import opened Items
  import opened Lanes
  import opened Links
  import opened HttpHead
  import opened Tunnel
  import opened Transparency
  import opened Deliveries
  import Frames
  import OpenMetas

  // ---- steps of the stream's own tasks while frames are on their way ----

  /** What a task does of its own depends neither on the frames in the socket nor on the one in the loop's hand. */
  lemma LocalOblivious(l: Lane, flow: seq<Item>, hold: seq<Item>, op: Op)
    requires Bare(l) && IsLocal(op) && Enabled(l, op)
    ensures var v := l.(flow := flow, hold := hold);
            && Enabled(v, op) && Apply(v, op).(flow := [], hold := []) == Apply(l, op) && Bare(Apply(l, op))
  {
    hide Carry, LeadCount, EmptyLeads;
  }

  lemma LocalStepOn(l: Lane, net: seq<Message>, held: Option<Held>, op: Op)
    requires Bare(l) && IsLocal(op) && Enabled(l, op)
    requires op.Read? || op.Finish? ==> AllFit(l.dir, l.kind, op.items)
    ensures var k := Only(l, [], net, held);
            && StepEnabled(k, Local(1, op)) && StepApply(k, Local(1, op)) == Only(Apply(l, op), [], net, held) && Bare(Apply(l, op))
  {
    hide Project, Enabled, Apply, Fits;
    var k := Only(l, [], net, held);
    ViewOnly(l, [], net, held);
    LocalOblivious(l, View(k, 1).flow, View(k, 1).hold, op);
    LocalFrame(l, op);
  }

  lemma Looks(d: Lane, u: Lane, net: seq<Message>, held: Option<Held>)
    requires Facing(d, u)
    ensures var s := Scene(Idle(d), Only(u, [], net, held));
            && D(s, 1) == d && 1 in s.up.lanes && 1 in s.down.lanes
            && U(s, 1) == u.(flow := U(s, 1).flow, hold := U(s, 1).hold)
    ensures Room(Only(u, [], net, held)) && Room(Idle(d))
  {
    hide Project;
    ViewOnly(d, [], [], None);
    ViewOnly(u, [], net, held);
  }

  lemma ConnActs(start: Tunnel, d: Lane, u: Lane, net: seq<Message>, held: Option<Held>, a: ConnStep, op: Op)
    requires Facing(d, u) && Reaches(start, Scene(Idle(d), Only(u, [], net, held))) && Enabled(u, op)
    requires (a.Take? && op.Take?) || (a.Write? && op == Op.Write(a.n) && !u.kind.Http?) || (a.Detach? && op.CloseRx? && u.drain.rx)
    ensures Reaches(start, Scene(Idle(d), Only(Apply(u, op), [], net, held))) && Facing(d, Apply(u, op))
  {
    hide Reaches, StepEnabled, StepApply, Fits, View, Apply;
    var s := Scene(Idle(d), Only(u, [], net, held));
    Looks(d, u, net, held);
    LocalOblivious(u, U(s, 1).flow, U(s, 1).hold, op);
    LocalStepOn(u, net, held, op);
    LocalFrame(u, op);
    assert Guard(s, Conn(1, a));
    DoesUp(start, Idle(d), Only(u, [], net, held), Conn(1, a), Local(1, op));
  }

  // ---- the scene of a burst ----

  function Chunked(pieces: seq<seq<byte>>): (items: seq<Item>)
    ensures |items| == |pieces| && forall i :: 0 <= i < |pieces| ==> items[i] == Chunk(pieces[i])
  {
    seq(|pieces|, i requires 0 <= i < |pieces| => Chunk(pieces[i]))
  }

  predicate Sendable(told: seq<seq<byte>>) {
    forall i :: 0 <= i < |told| ==> 0 < |told[i]| <= Frames.MAX_FRAME_PAYLOAD
  }

  function OnWire(told: seq<seq<byte>>): (net: seq<Message>)
    requires Sendable(told)
    ensures |net| == |told|
    ensures forall i :: 0 <= i < |told| ==> net[i] == Encode(Up, OpenMetas.Tcp, 1, Chunk(told[i]))
  {
    seq(|told|, i requires 0 <= i < |told| => Encode(Up, OpenMetas.Tcp, 1, Chunk(told[i])))
  }

  /** The reply lane: `read` has been read, the first `a` pieces are written, those up to `b` are in the channel. */
  function Reply(told: seq<seq<byte>>, read: seq<byte>, a: nat, b: nat): Lane
    requires a <= b <= |told|
  {
    var u := Calm(Up, read);
    u.(drain := u.drain.(out := Flat(told[..a]), chan := Chunked(told[a..b])))
  }

  /** `sent` pieces have left the client; the loop holds piece `b` if `h`, and the rest is in the socket. */
  function Burst(told: seq<seq<byte>>, sent: nat, a: nat, b: nat, h: bool): Tunnel
    requires Sendable(told) && a <= b <= sent <= |told| && (h ==> b < sent)
  {
    Scene(Idle(Calm(Down, [])),
          Only(Reply(told, Flat(told[..sent]), a, b), [], OnWire(told[if h then b + 1 else b..sent]),
               if h then Some(Held(1, Chunk(told[b]))) else None))
  }

  lemma FlatTake(told: seq<seq<byte>>, i: nat)
    requires i < |told|
    ensures Flat(told[..i + 1]) == Flat(told[..i]) + told[i]
  {
    assert told[..i + 1] == told[..i] + [told[i]];
    FlatConcat(told[..i], [told[i]]);
    FlatOne(told[i]);
  }

  lemma FlatOne(data: seq<byte>)
    ensures Flat([data]) == data
  {
    var one: seq<seq<byte>> := [data];
    assert one[1..] == [] && data + [] == data;
  }

  /** The client reads a piece and sends it off. */
  lemma SendOne(start: Tunnel, told: seq<seq<byte>>, i: nat)
    requires Sendable(told) && i < |told| && Reaches(start, Burst(told, i, 0, 0, false))
    ensures Reaches(start, Burst(told, i + 1, 0, 0, false))
  {
    hide Reaches, Encode, StepEnabled, StepApply, Guard;
    var d, data := Calm(Down, []), told[i];
    var u, net := Reply(told, Flat(told[..i]), 0, 0), OnWire(told[..i]);
    assert told[0..i] == told[..i] && told[0..i + 1] == told[..i + 1];
    var u1 := u.(source := u.source.(read := u.source.read + data, pend := [Chunk(data)]));
    ReadsPiece(start, d, u, net, data);
    var m := Encode(Up, OpenMetas.Tcp, 1, Chunk(data));
    var u2 := u1.(source := u1.source.(pend := []));
    Queues(start, d, u1, net, Chunk(data));
    assert [Chunk(data)][1..] == [];
    Transmits(start, d, u2, net, m);
    FlatTake(told, i);
    assert net + [m] == OnWire(told[..i + 1]);
    assert u2 == Reply(told, Flat(told[..i + 1]), 0, 0);
  }

  lemma ReadsPiece(start: Tunnel, d: Lane, u: Lane, net: seq<Message>, data: seq<byte>)
    requires Facing(d, u) && HasTask(d) && Reaches(start, Scene(Idle(d), Only(u, [], net, None))) && u.kind.Tcp?
    requires 0 < |data| <= Frames.MAX_FRAME_PAYLOAD
    requires u.source.led && !u.source.ended && u.source.pend == [] && u.source.uncut == []
    ensures var u1 := u.(source := u.source.(read := u.source.read + data, pend := [Chunk(data)]));
            Reaches(start, Scene(Idle(d), Only(u1, [], net, None))) && Facing(d, u1)
  {
    hide Reaches, StepEnabled, StepApply, View;
    var s := Scene(Idle(d), Only(u, [], net, None));
    Looks(d, u, net, None);
    assert Chunks(data, Frames.MAX_FRAME_PAYLOAD) == [Chunk(data)];
    CutPlain(u, data);
    var op := Op.Read(data, [Chunk(data)]);
    LocalStepOn(u, net, None, op);
    NoLeads([Chunk(data)]);
    assert Guard(s, Task(1, LocalRead(data)));
    DoesUp(start, Idle(d), Only(u, [], net, None), Task(1, LocalRead(data)), Local(1, op));
  }

  lemma Queues(start: Tunnel, d: Lane, u: Lane, net: seq<Message>, f: Item)
    requires Facing(d, u) && Reaches(start, Scene(Idle(d), Only(u, [], net, None))) && u.source.pend == [f] && Fits(Up, u.kind, f)
    ensures Reaches(start, Scene(Idle(d), Only(Shifted(u), [Encode(Up, u.kind, 1, f)], net, None))) && Facing(d, Shifted(u))
  {
    hide Reaches, View, Encode, Fits;
    var k := Only(u, [], net, None);
    Looks(d, u, net, None);
    assert StepEnabled(k, PushFrame(1)) && StepApply(k, PushFrame(1)) == Only(Shifted(u), [Encode(Up, u.kind, 1, f)], net, None);
    assert Guard(Scene(Idle(d), k), Task(1, Queue));
    DoesUp(start, Idle(d), k, Task(1, Queue), PushFrame(1));
  }

  lemma Transmits(start: Tunnel, d: Lane, u: Lane, net: seq<Message>, m: Message)
    requires Reaches(start, Scene(Idle(d), Only(u, [m], net, None)))
    ensures Reaches(start, Scene(Idle(d), Only(u, [], net + [m], None)))
  {
    hide Reaches;
    var k := Only(u, [m], net, None);
    assert StepEnabled(k, Transmit) && StepApply(k, Transmit) == Only(u, [], net + [m], None);
    assert Guard(Scene(Idle(d), k), Loop(UpTransmit));
    DoesUp(start, Idle(d), k, Loop(UpTransmit), Transmit);
  }

  // ---- the broker's end ----

  lemma WireHead(told: seq<seq<byte>>, b: nat, sent: nat)
    requires Sendable(told) && b < sent <= |told|
    ensures OnWire(told[b..sent]) == [Encode(Up, OpenMetas.Tcp, 1, Chunk(told[b]))] + OnWire(told[b + 1..sent])
  {
    hide Encode;
    assert told[b..sent][1..] == told[b + 1..sent];
  }

  lemma ChannelGrows(told: seq<seq<byte>>, a: nat, b: nat)
    requires a <= b < |told|
    ensures Chunked(told[a..b + 1]) == Chunked(told[a..b]) + [Chunk(told[b])]
  {
  }

  lemma ReceivesOn(u: Lane, m: Message, rest: seq<Message>, f: Item)
    requires Bare(u) && u.dir.Up? && Fits(Up, u.kind, f) && m == Encode(Up, u.kind, 1, f) && u.drain.entry.Live? && u.drain.rx
    ensures var k := Only(u, [], [m] + rest, None);
            && StepEnabled(k, Receive(true))
            && StepApply(k, Receive(true)) ==
               if |u.drain.chan| < 8 then Only(u.(drain := u.drain.(chan := u.drain.chan + [f])), [], rest, None)
               else Only(u, [], rest, Some(Held(1, f)))
  {
    hide Project, Fits, Encode, Decode;
    DecodeEncode(Up, u.kind, 1, f);
    assert ([m] + rest)[1..] == rest;
  }

  /** The loop reads a frame: into the channel while there is room, into its hand when there is none. */
  lemma TakesIn(start: Tunnel, told: seq<seq<byte>>, sent: nat, a: nat, b: nat)
    requires Sendable(told) && a <= b < sent <= |told| && Reaches(start, Burst(told, sent, a, b, false))
    ensures b - a < 8 ==> Reaches(start, Burst(told, sent, a, b + 1, false))
    ensures b - a >= 8 ==> Reaches(start, Burst(told, sent, a, b, true))
  {
    hide Reaches, Encode, StepEnabled, StepApply;
    var d, u := Calm(Down, []), Reply(told, Flat(told[..sent]), a, b);
    var m, rest := Encode(Up, OpenMetas.Tcp, 1, Chunk(told[b])), OnWire(told[b + 1..sent]);
    WireHead(told, b, sent);
    ReceivesOn(u, m, rest, Chunk(told[b]));
    ChannelGrows(told, a, b);
    var k := Only(u, [], [m] + rest, None);
    GuardReceive(Scene(Idle(d), k));
    DoesUp(start, Idle(d), k, Loop(BrokerReceive), Receive(true));
  }

  /** The connection takes the oldest frame and writes it to its visitor. */
  lemma WritesOne(start: Tunnel, told: seq<seq<byte>>, sent: nat, a: nat, b: nat, h: bool)
    requires Sendable(told) && a < b <= sent <= |told| && (h ==> b < sent) && Reaches(start, Burst(told, sent, a, b, h))
    ensures Reaches(start, Burst(told, sent, a + 1, b, h))
  {
    hide Reaches, Encode;
    var d, u := Calm(Down, []), Reply(told, Flat(told[..sent]), a, b);
    var net := OnWire(told[if h then b + 1 else b..sent]);
    var held := if h then Some(Held(1, Chunk(told[b]))) else None;
    var data := told[a];
    assert told[a..b][1..] == told[a + 1..b] && told[a..b][0] == data;
    ConnActs(start, d, u, net, held, ConnStep.Take, Op.Take);
    var u1 := u.(drain := u.drain.(chan := Chunked(told[a + 1..b]), cur := data));
    assert Apply(u, Op.Take) == u1;
    ConnActs(start, d, u1, net, held, ConnStep.Write(|data|), Op.Write(|data|));
    FlatTake(told, a);
    assert data[..|data|] == data && data[|data|..] == [];
    assert Apply(u1, Op.Write(|data|)) == Reply(told, Flat(told[..sent]), a + 1, b);
  }

  /** And the loop hands over what it has waited with. */
  lemma HandsOver(start: Tunnel, told: seq<seq<byte>>, sent: nat, a: nat, b: nat)
    requires Sendable(told) && a <= b < sent <= |told| && b - a < 8 && Reaches(start, Burst(told, sent, a, b, true))
    ensures Reaches(start, Burst(told, sent, a, b + 1, false))
  {
    hide Reaches, Encode, Project;
    var d, u := Calm(Down, []), Reply(told, Flat(told[..sent]), a, b);
    var net, f := OnWire(told[b + 1..sent]), Chunk(told[b]);
    var k := Only(u, [], net, Some(Held(1, f)));
    ViewOnly(u, [], net, Some(Held(1, f)));
    ChannelGrows(told, a, b);
    assert StepEnabled(k, DeliverHeld) && StepApply(k, DeliverHeld) == Only(Reply(told, Flat(told[..sent]), a, b + 1), [], net, None);
    assert Guard(Scene(Idle(d), k), Loop(BrokerDeliver));
    DoesUp(start, Idle(d), k, Loop(BrokerDeliver), DeliverHeld);
  }

  // ---- the whole burst ----

  lemma {:induction false} SendAll(start: Tunnel, told: seq<seq<byte>>, i: nat)
    requires Sendable(told) && i <= |told| && Reaches(start, Burst(told, 0, 0, 0, false))
    ensures Reaches(start, Burst(told, i, 0, 0, false))
    decreases i
  {
    hide Reaches, Burst;
    if i > 0 {
      SendAll(start, told, i - 1);
      SendOne(start, told, i - 1);
    }
  }

  lemma {:induction false} FillUp(start: Tunnel, told: seq<seq<byte>>, b: nat)
    requires Sendable(told) && b <= 8 <= |told| && Reaches(start, Burst(told, |told|, 0, 0, false))
    ensures Reaches(start, Burst(told, |told|, 0, b, false))
    decreases b
  {
    hide Reaches, Burst;
    if b > 0 {
      FillUp(start, told, b - 1);
      TakesIn(start, told, |told|, 0, b - 1);
    }
  }

  lemma {:induction false} WriteUpTo(start: Tunnel, told: seq<seq<byte>>, a: nat, b: nat, h: bool)
    requires Sendable(told) && a <= b <= |told| && (h ==> b < |told|) && Reaches(start, Burst(told, |told|, 0, b, h))
    ensures Reaches(start, Burst(told, |told|, a, b, h))
    decreases a
  {
    hide Reaches, Burst;
    if a > 0 {
      WriteUpTo(start, told, a - 1, b, h);
      WritesOne(start, told, |told|, a - 1, b, h);
    }
  }

  lemma {:induction false} OneByOne(start: Tunnel, told: seq<seq<byte>>, b: nat, n: nat)
    requires Sendable(told) && b <= n <= |told| && Reaches(start, Burst(told, |told|, b, b, false))
    ensures Reaches(start, Burst(told, |told|, n, n, false))
    decreases n
  {
    hide Reaches, Burst;
    if n > b {
      OneByOne(start, told, b, n - 1);
      TakesIn(start, told, |told|, n - 1, n - 1);
      WritesOne(start, told, |told|, n - 1, n, false);
    }
  }

  lemma Begins(told: seq<seq<byte>>)
    requires Sendable(told)
    ensures Reaches(INIT, Burst(told, 0, 0, 0, false))
  {
    hide Reaches;
    Opens(OpenMetas.Tcp, []);
    assert Opened(OpenMetas.Tcp, []) == Calm(Down, []);
    AckUp(INIT, Calm(Down, []));
    assert told[..0] == [] && told[0..0] == [];
  }

  /** The height of the burst: nothing written yet, the channel full, one frame in the loop's hand, the rest behind it. */
  predicate AtItsHeight(s: Tunnel, told: seq<seq<byte>>) {
    && U(s, 1).source.read == Flat(told) && U(s, 1).drain.out == [] && |U(s, 1).drain.chan| == 8
    && s.up.held.Some? && s.up.held.value.id == 1 && |s.up.net| == |told| - 9
  }

  lemma Rises(told: seq<seq<byte>>)
    requires Sendable(told) && |told| >= 9
    ensures Reaches(INIT, Burst(told, |told|, 0, 8, true)) && AtItsHeight(Burst(told, |told|, 0, 8, true), told)
  {
    hide Reaches, View;
    Begins(told);
    SendAll(INIT, told, |told|);
    FillUp(INIT, told, 8);
    TakesIn(INIT, told, |told|, 0, 8);
    var u := Reply(told, Flat(told[..|told|]), 0, 8);
    Looks(Calm(Down, []), u, OnWire(told[9..|told|]), Some(Held(1, Chunk(told[8]))));
    assert told[..|told|] == told && told[..0] == [];
  }

  lemma Falls(told: seq<seq<byte>>)
    requires Sendable(told) && |told| >= 9
    ensures Reaches(Burst(told, |told|, 0, 8, true), Scene(Idle(Calm(Down, [])), Idle(Calm(Up, Flat(told)))))
  {
    hide Reaches;
    var m := Burst(told, |told|, 0, 8, true);
    Stay(m);
    WriteUpTo(m, told, 8, 8, true);
    HandsOver(m, told, |told|, 8, 8);
    WritesOne(m, told, |told|, 8, 9, false);
    OneByOne(m, told, 9, |told|);
    assert told[..|told|] == told && told[|told|..|told|] == [];
  }

  /**
   * A response of any nine frames or more, of any sizes: there is a session in which all of them are on their way before
   * the visitor has read one, the channel is full, the loop waits, and still every byte arrives and the end is regular.
   */
  lemma BurstArrives(told: seq<seq<byte>>)
    requires Sendable(told) && |told| >= 9
    ensures exists pre, post ::
              && Possible(INIT, pre) && AtItsHeight(After(INIT, pre), told)
              && Session(pre + post) && EndedWell(After(INIT, pre + post), 1)
              && Seen(INIT, pre + post, 1) == Traffic([], [], Flat(told), Flat(told))
  {
    hide Possible, After, Seen, View, Burst, EndedWell, AtItsHeight;
    Rises(told);
    Falls(told);
    var m := Burst(told, |told|, 0, 8, true);
    EndUp(m, Calm(Down, []), OpenMetas.Tcp, Flat(told));
    EndDown(m, [], Closed(Up, Flat(told)));
    var pre :| Possible(INIT, pre) && After(INIT, pre) == m;
    var e := Scene(Idle(Closed(Down, [])), Idle(Closed(Up, Flat(told))));
    var post :| Possible(m, post) && After(m, post) == e;
    Deliveries.Chain(INIT, pre, post);
    EndsWell(pre + post, told);
  }

  lemma EndsWell(run: seq<Label>, told: seq<seq<byte>>)
    requires Possible(INIT, run) && After(INIT, run) == Scene(Idle(Closed(Down, [])), Idle(Closed(Up, Flat(told))))
    ensures Session(run) && EndedWell(After(INIT, run), 1) && Seen(INIT, run, 1) == Traffic([], [], Flat(told), Flat(told))
  {
    hide Possible, After, Seen, View, TunnelInv, Inv;
    Lanes1(Closed(Down, []), Closed(Up, Flat(told)));
    Endpoints(run, 1);
  }

  // ---- a visitor that does not read ----

  /** The loop has waited too long: the stream is off the table, and what it was holding is gone. */
  function Abandoned(told: seq<seq<byte>>, a: nat): Lane
    requires a <= 8 <= |told|
  {
    var u := Reply(told, Flat(told), a, 8);
    u.(drain := u.drain.(entry := Gone))
  }

  lemma Waits(start: Tunnel, d: Lane, u: Lane, net: seq<Message>, f: Item)
    requires Facing(d, u) && u.drain.entry.Live? && Reaches(start, Scene(Idle(d), Only(u, [], net, Some(Held(1, f)))))
    ensures Reaches(start, Scene(Idle(d), Only(u.(drain := u.drain.(entry := Gone)), [], net, None)).(stalled := Some(1)))
  {
    hide Reaches, Project;
    var k := Only(u, [], net, Some(Held(1, f)));
    var s, k' := Scene(Idle(d), k), Only(u.(drain := u.drain.(entry := Gone)), [], net, None);
    ViewOnly(u, [], net, Some(Held(1, f)));
    assert StepEnabled(k, StallHeld) && StepApply(k, StallHeld) == k';
    RunOne(k, StallHeld);
    NoSteps(Idle(d));
    assert Next(s, Loop(BrokerStall)) == Scene(Idle(d), k').(stalled := Some(1));
    ThenDoes(start, s, Loop(BrokerStall));
  }

  lemma Stalls(start: Tunnel, d: Lane, u: Lane, net: seq<Message>, f: Item)
    requires Facing(d, u) && u.drain.entry.Live? && Reaches(start, Scene(Idle(d), Only(u, [], net, Some(Held(1, f)))))
    ensures Reaches(start, Scene(Idle(d), Only(u.(drain := u.drain.(entry := Gone)), [], net, None)))
  {
    hide Reaches, Project;
    Waits(start, d, u, net, f);
    var k' := Only(u.(drain := u.drain.(entry := Gone)), [], net, None);
    var m := Scene(Idle(d), k').(stalled := Some(1));
    NoSteps(Idle(d));
    NoSteps(k');
    assert Next(m, Loop(StallGiveUp)) == Scene(Idle(d), k');
    ThenDoes(start, m, Loop(StallGiveUp));
  }

  lemma {:induction false} WritesRest(start: Tunnel, told: seq<seq<byte>>, net: seq<Message>, a: nat)
    requires Sendable(told) && a <= 8 <= |told| && Reaches(start, Scene(Idle(Calm(Down, [])), Only(Abandoned(told, 0), [], net, None)))
    ensures Reaches(start, Scene(Idle(Calm(Down, [])), Only(Abandoned(told, a), [], net, None)))
    decreases a
  {
    hide Reaches;
    if a > 0 {
      WritesRest(start, told, net, a - 1);
      var d, u, data := Calm(Down, []), Abandoned(told, a - 1), told[a - 1];
      assert told[a - 1..8][1..] == told[a..8] && told[a - 1..8][0] == data;
      ConnActs(start, d, u, net, None, ConnStep.Take, Op.Take);
      var u1 := u.(drain := u.drain.(chan := Chunked(told[a..8]), cur := data));
      assert Apply(u, Op.Take) == u1;
      ConnActs(start, d, u1, net, None, ConnStep.Write(|data|), Op.Write(|data|));
      FlatTake(told, a - 1);
      assert data[..|data|] == data && data[|data|..] == [];
      assert Apply(u1, Op.Write(|data|)) == Abandoned(told, a);
    }
  }

  /**
   * The stall does happen, and then the burst is cut off: there is a session in which the visitor gets the eight pieces
   * that were in its channel and, whatever is on its way, can never get another byte.
   */
  lemma StallCutsShort(told: seq<seq<byte>>)
    requires Sendable(told) && |told| >= 9
    ensures exists run ::
              && Session(run) && Seen(INIT, run, 1) == Traffic([], [], Flat(told), Flat(told[..8]))
              && GivenUp(U(After(INIT, run), 1), Flat(told[..8]))
  {
    hide Possible, After, Seen, View, TunnelInv, Inv;
    Rises(told);
    var d, u, net := Calm(Down, []), Reply(told, Flat(told), 0, 8), OnWire(told[9..|told|]);
    assert told[..|told|] == told;
    Stalls(INIT, d, u, net, Chunk(told[8]));
    WritesRest(INIT, told, net, 8);
    var v := Abandoned(told, 8);
    var e := Scene(Idle(d), Only(v, [], net, None));
    var run :| Possible(INIT, run) && After(INIT, run) == e;
    Looks(d, v, net, None);
    Endpoints(run, 1);
    Leftover(told, net);
  }

  lemma Leftover(told: seq<seq<byte>>, net: seq<Message>)
    requires |told| >= 9
    ensures var u := View(Only(Abandoned(told, 8), [], net, None), 1);
            GivenUp(u, Flat(told[..8])) && u.drain.out == Flat(told[..8]) && u.source.read == Flat(told)
  {
    hide Project;
    ViewOnly(Abandoned(told, 8), [], net, None);
    assert told[8..8] == [];
  }
}
