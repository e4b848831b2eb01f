/** What the two sides tell each other: the frames that each turn of a stream puts on its way. */
module Notices {
  import opened Bytes
  import opened Items
  import opened Lanes
  import opened Links
  import opened HttpHead
  import opened Tunnel
  import opened Transparency
  import Frames

  /** One frame more is queued behind the others, and it is read as this item of this stream. */
  predicate Adds(k: Link, k': Link, id: u32, item: Item) {
    |k'.queue| == |k.queue| + 1 && k'.queue[..|k.queue|] == k.queue && Links.Decode(k.dir, k'.queue[|k.queue|]) == Some(Held(id, item))
  }

  lemma InjectAdds(k: Link, id: u32, item: Item)
    requires Wf(k) && StepEnabled(k, InjectFrame(id, item))
    ensures Adds(k, RunSteps(k, [InjectFrame(id, item)]), id, item)
  {
    hide Encode, Links.Decode, Fits;
    RunOne(k, InjectFrame(id, item));
    JunkFits(k.dir, k.lanes[id].kind, item);
    DecodeEncode(k.dir, k.lanes[id].kind, id, item);
  }

  /** The next frame a task has cut is queued behind the others. */
  lemma PushAdds(k: Link, id: u32)
    requires Wf(k) && StepEnabled(k, PushFrame(id))
    ensures Adds(k, RunSteps(k, [PushFrame(id)]), id, k.lanes[id].source.pend[0])
  {
    hide Encode, Links.Decode, Fits;
    RunOne(k, PushFrame(id));
    DecodeEncode(k.dir, k.lanes[id].kind, id, k.lanes[id].source.pend[0]);
  }

  // ---- the visitor's side ----

  /** What was read from a visitor is cut into frames of at most 256 KiB, all of it and nothing else. */
  lemma ReadCuts(s: Tunnel, id: u32, data: seq<byte>)
    requires TunnelInv(s) && Guard(s, Conn(id, ConnStep.Read(data)))
    ensures var d := D(Next(s, Conn(id, ConnStep.Read(data))), id).source;
            d.pend == Chunks(data, 262_144) && Carry(d.pend) == data && d.read == D(s, id).source.read + data
  {
    hide View, Chunks, Apply, Enabled, LinkInv, StepEnabled;
    var op := Op.Read(data, Chunks(data, DATA_CHUNK_MAX));
    Ready(s, Conn(id, ConnStep.Read(data)));
    DownOne(s, id, op);
    Standing(s, id);
    DownFacts(D(s, id));
    CarryChunks(data, DATA_CHUNK_MAX);
    ReadEffect(D(s, id), op);
  }

  lemma ReadEffect(d: Lane, op: Op)
    requires Enabled(d, op) && op.Read? && d.dir.Down?
    ensures Apply(d, op).source.pend == op.items && Apply(d, op).source.read == d.source.read + op.data
  {
  }

  /** The single step of a label is the single operation of its lane. */
  lemma DownOne(s: Tunnel, id: u32, op: Op)
    requires TunnelInv(s) && AllEnabled(s.down, [Local(id, op)])
    ensures View(RunSteps(s.down, [Local(id, op)]), id) == Apply(D(s, id), op) && Enabled(D(s, id), op)
  {
    hide View, Apply, LinkInv, Enabled, StepApply;
    Both(s);
    Shaped(s.down);
    assert StepEnabled(s.down, Local(id, op));
    OneLocal(s.down, id, op);
  }

  lemma UpOne(s: Tunnel, id: u32, op: Op)
    requires TunnelInv(s) && AllEnabled(s.up, [Local(id, op)])
    ensures View(RunSteps(s.up, [Local(id, op)]), id) == Apply(U(s, id), op) && Enabled(U(s, id), op)
  {
    hide View, Apply, LinkInv, Enabled, StepApply;
    Both(s);
    Shaped(s.up);
    assert StepEnabled(s.up, Local(id, op));
    OneLocal(s.up, id, op);
  }

  /** At the end of a visitor's TCP connection a regular Close is due; a plain request just stops. */
  lemma EofTells(s: Tunnel, id: u32)
    requires TunnelInv(s) && Guard(s, Conn(id, Eof))
    ensures var d := D(Next(s, Conn(id, Eof)), id).source;
            d.ended && d.pend == if D(s, id).kind.Http? then [] else [End(0)]
  {
    hide View, Apply, Enabled, LinkInv, StepEnabled;
    var op := Finish(if D(s, id).kind.Http? then [] else [End(CLOSE_OK)]);
    Ready(s, Conn(id, Eof));
    DownOne(s, id, op);
    FinishEffect(D(s, id), op);
  }

  lemma FinishEffect(l: Lane, op: Op)
    requires Enabled(l, op) && op.Finish?
    ensures Apply(l, op).source.pend == op.items && Apply(l, op).source.ended
  {
  }

  /** After an upgrade the end of the visitor's side is a regular Close. */
  lemma UpgradeEndTells(s: Tunnel, id: u32)
    requires TunnelInv(s) && Guard(s, Conn(id, UpgradeEnd))
    ensures D(Next(s, Conn(id, UpgradeEnd)), id).source.pend == [End(0)]
  {
    hide View, Apply, Enabled, LinkInv, StepEnabled;
    Ready(s, Conn(id, UpgradeEnd));
    DownOne(s, id, Finish([End(CLOSE_OK)]));
    FinishEffect(D(s, id), Finish([End(CLOSE_OK)]));
  }

  /** A request that is given up, and a stream whose visitor has stalled, are closed at the client with an error. */
  lemma GivingUpTells(s: Tunnel, id: u32)
    requires TunnelInv(s)
    ensures Guard(s, Conn(id, Tell)) ==> Adds(s.down, Next(s, Conn(id, Tell)).down, id, End(1))
    ensures s.stalled == Some(id) && Guard(s, Loop(StallClose)) ==>
              Adds(s.down, Next(s, Loop(StallClose)).down, id, End(1)) && Next(s, Loop(StallClose)).stalled == None
  {
    hide View, LinkInv, StepEnabled, Adds, RunSteps;
    Both(s);
    Shaped(s.down);
    if Guard(s, Conn(id, Tell)) {
      Ready(s, Conn(id, Tell));
      First(s.down, InjectFrame(id, End(CLOSE_APP_ERROR)));
      InjectAdds(s.down, id, End(CLOSE_APP_ERROR));
    }
    if s.stalled == Some(id) && Guard(s, Loop(StallClose)) {
      Ready(s, Loop(StallClose));
      First(s.down, InjectFrame(id, End(CLOSE_APP_ERROR)));
      InjectAdds(s.down, id, End(CLOSE_APP_ERROR));
    }
  }

  lemma First(k: Link, st: Step)
    requires AllEnabled(k, [st])
    ensures StepEnabled(k, st)
  {
    hide StepEnabled, StepApply;
  }

  // ---- the client's side ----

  /** A stream the client has no target for is refused. */
  lemma RefusalTells(s: Tunnel, id: u32)
    requires TunnelInv(s) && s.refusing == Some(id) && Guard(s, Loop(ClientRefuse))
    ensures Adds(s.up, Next(s, Loop(ClientRefuse)).up, id, Reject) && Next(s, Loop(ClientRefuse)).refusing == None
  {
    hide View, LinkInv, StepEnabled, Adds, RunSteps;
    Both(s);
    Shaped(s.up);
    Ready(s, Loop(ClientRefuse));
    First(s.up, InjectFrame(id, Reject));
    InjectAdds(s.up, id, Reject);
  }

  /** Whatever else shares the two queues goes behind all that is there, as it is. */
  lemma ForeignQueues(s: Tunnel, m: Message)
    requires TunnelInv(s)
    ensures Guard(s, Loop(DownForeign(m))) ==>
              var s' := Next(s, Loop(DownForeign(m))); s'.down == s.down.(queue := s.down.queue + [m]) && s'.up == s.up
    ensures Guard(s, Loop(UpForeign(m))) ==>
              var s' := Next(s, Loop(UpForeign(m))); s'.up == s.up.(queue := s.up.queue + [m]) && s'.down == s.down
  {
    hide LinkInv, Elsewhere;
    if Guard(s, Loop(DownForeign(m))) {
      RunOne(s.down, Foreign(m));
    }
    if Guard(s, Loop(UpForeign(m))) {
      RunOne(s.up, Foreign(m));
    }
  }

  /** So is one whose target cannot be dialled; the end of the local service is passed on with its code. */
  lemma TaskTells(s: Tunnel, id: u32, code: byte)
    requires TunnelInv(s)
    ensures Guard(s, Task(id, DialFail)) ==> U(Next(s, Task(id, DialFail)), id).source.pend == [Reject]
    ensures Guard(s, Task(id, TcpAck)) ==> U(Next(s, Task(id, TcpAck)), id).source.pend == [Lead([])]
    ensures Guard(s, Task(id, LocalEnd(code))) ==> U(Next(s, Task(id, LocalEnd(code))), id).source.pend == [End(code)] && code <= 1
  {
    hide View, Apply, Enabled, LinkInv, StepEnabled;
    if Guard(s, Task(id, DialFail)) {
      Ready(s, Task(id, DialFail));
      UpOne(s, id, Finish([Reject]));
      FinishEffect(U(s, id), Finish([Reject]));
    }
    if Guard(s, Task(id, LocalEnd(code))) {
      Ready(s, Task(id, LocalEnd(code)));
      UpOne(s, id, Finish([End(code)]));
      FinishEffect(U(s, id), Finish([End(code)]));
    }
    if Guard(s, Task(id, TcpAck)) {
      Ready(s, Task(id, TcpAck));
      UpOne(s, id, Op.Read([], [Lead([])]));
      AckEffect(U(s, id));
    }
  }

  lemma AckEffect(u: Lane)
    requires Enabled(u, Op.Read([], [Lead([])]))
    ensures Apply(u, Op.Read([], [Lead([])])).source.pend == [Lead([])]
  {
  }

  /** A TCP stream whose local service no longer takes bytes is closed at the broker with an error, and goes on draining. */
  lemma WriteFailureTells(s: Tunnel, id: u32)
    requires TunnelInv(s) && Guard(s, Task(id, OutputFail)) && !U(s, id).kind.Http?
    ensures var e := Next(s, Task(id, OutputFail));
            Adds(s.up, e.up, id, End(1)) && !D(e, id).drain.ok && D(e, id).drain.sink.Running?
  {
    hide View, Apply, LinkInv, StepEnabled, Adds, Enabled;
    Both(s);
    Shaped(s.up);
    Ready(s, Task(id, OutputFail));
    First(s.up, InjectFrame(id, End(CLOSE_APP_ERROR)));
    InjectAdds(s.up, id, End(CLOSE_APP_ERROR));
    DownOne(s, id, Op.WriteFail(true));
    FailEffect(D(s, id));
  }

  lemma FailEffect(d: Lane)
    requires Enabled(d, Op.WriteFail(true))
    ensures var d' := Apply(d, Op.WriteFail(true)); !d'.drain.ok && d'.drain.sink.Running?
  {
  }

  // ---- winding up ----

  /** Operations one after the other. */
  predicate OpsEnabled(l: Lane, ops: seq<Op>)
    decreases |ops|
  {
    ops == [] || (Enabled(l, ops[0]) && OpsEnabled(Apply(l, ops[0]), ops[1..]))
  }

  function ApplyOps(l: Lane, ops: seq<Op>): Lane
    requires OpsEnabled(l, ops)
    decreases |ops|
  {
    if ops == [] then l else ApplyOps(Apply(l, ops[0]), ops[1..])
  }

  function Locals(id: u32, ops: seq<Op>): seq<Step>
    decreases |ops|
  {
    if ops == [] then [] else [Local(id, ops[0])] + Locals(id, ops[1..])
  }

  lemma {:induction false} LocalRun(k: Link, id: u32, ops: seq<Op>)
    requires Wf(k) && AllEnabled(k, Locals(id, ops))
    ensures OpsEnabled(View(k, id), ops) && View(RunSteps(k, Locals(id, ops)), id) == ApplyOps(View(k, id), ops)
    decreases |ops|
  {
    hide View, Apply, StepApply, Enabled;
    if ops != [] {
      var steps := Locals(id, ops);
      assert steps[0] == Local(id, ops[0]) && steps[1..] == Locals(id, ops[1..]);
      assert Enabled(View(k, id), ops[0]);
      AfterLocal(k, id, ops[0]);
      KeepWf(k, steps[0]);
      LocalRun(StepApply(k, steps[0]), id, ops[1..]);
    }
  }

  /** Off the table, if it was there, and without a receiver. */
  function OffOps(l: Lane): seq<Op> {
    (if l.drain.entry.Live? then [Op.Clear] else []) + [CloseRx]
  }

  lemma OffSteps(id: u32, l: Lane)
    ensures Locals(id, OffOps(l)) == Unenter(id, l) + [Local(id, CloseRx)]
  {
    assert [CloseRx][1..] == [] && [Op.Clear, CloseRx][1..] == [CloseRx];
  }

  lemma OffEffect(l: Lane)
    requires OpsEnabled(l, OffOps(l))
    ensures var e := ApplyOps(l, OffOps(l)).drain; !e.entry.Live? && !e.rx && e.sink.Stopped? && e.out == l.drain.out
  {
    assert [CloseRx][1..] == [] && [Op.Clear, CloseRx][1..] == [CloseRx];
  }

  /** A connection that leaves takes its stream off the table, closes its channel and stops reading its visitor. */
  lemma LeaveEnds(s: Tunnel, id: u32)
    requires TunnelInv(s) && Guard(s, Conn(id, ConnStep.Leave))
    ensures var e := Next(s, Conn(id, ConnStep.Leave));
            && !U(e, id).drain.entry.Live? && !U(e, id).drain.rx && D(e, id).source.ended && D(e, id).source.pend == []
  {
    hide View, LinkInv, OpsEnabled, ApplyOps, Locals, AllEnabled, RunSteps, OffOps, Apply, Enabled;
    Both(s);
    Shaped(s.up);
    Ready(s, Conn(id, ConnStep.Leave));
    OffSteps(id, U(s, id));
    LocalRun(s.up, id, OffOps(U(s, id)));
    OffEffect(U(s, id));
    DownOne(s, id, Abort);
    AbortEffect(D(s, id));
  }

  lemma AbortEffect(l: Lane)
    requires Enabled(l, Abort)
    ensures Apply(l, Abort).source.ended && Apply(l, Abort).source.pend == []
  {
  }

  /** A stream task that ends does the same on the client. */
  lemma QuitEnds(s: Tunnel, id: u32)
    requires TunnelInv(s) && Guard(s, Task(id, Quit))
    ensures var e := Next(s, Task(id, Quit));
            && !D(e, id).drain.entry.Live? && !D(e, id).drain.rx && U(e, id).source.ended && U(e, id).source.pend == []
  {
    hide View, LinkInv, OpsEnabled, ApplyOps, Locals, AllEnabled, RunSteps, OffOps, Apply, Enabled;
    Both(s);
    Shaped(s.down);
    Ready(s, Task(id, Quit));
    OffSteps(id, D(s, id));
    LocalRun(s.down, id, OffOps(D(s, id)));
    OffEffect(D(s, id));
    UpOne(s, id, Abort);
    AbortEffect(U(s, id));
  }

  /** One that is aborted alone leaves the reader of a TCP stream as it was. */
  lemma DetachEnds(s: Tunnel, id: u32)
    requires TunnelInv(s) && Guard(s, Task(id, TaskStep.Detach))
    ensures var e := Next(s, Task(id, TaskStep.Detach));
            !D(e, id).drain.entry.Live? && !D(e, id).drain.rx && U(e, id) == U(s, id)
  {
    hide View, LinkInv, OpsEnabled, ApplyOps, Locals, AllEnabled, OffOps, Apply, Enabled;
    Both(s);
    Shaped(s.down);
    Ready(s, Task(id, TaskStep.Detach));
    OffSteps(id, D(s, id));
    LocalRun(s.down, id, OffOps(D(s, id)));
    OffEffect(D(s, id));
  }
}
