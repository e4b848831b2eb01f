/**
 * The HTTP handshake over a whole session: what a stream task makes of the response, read by read and among
 * everything else that goes on, is what `HttpHead.Split` makes of it as a whole.
 */
module Handshakes {
  import opened Bytes
  import opened Items
  import opened Lanes
  import opened Links
  import opened HttpHead
  import opened Tunnel
  import opened Transparency
  import Frames
  import OpenMetas

  /** The reads of stream `t`'s local socket during a run. */
  function ReadOf(l: Label, t: u32): seq<seq<byte>> {
    if l.Task? && l.id == t && l.task.LocalRead? then [l.task.data] else []
  }

  function Pieces(run: seq<Label>, t: u32): seq<seq<byte>> {
    if run == [] then [] else ReadOf(run[0], t) + Pieces(run[1..], t)
  }

  /** How the whole response is split. */
  function Verdict(pieces: seq<seq<byte>>): Outcome {
    HttpHead.Split(CLIENT, [], pieces)
  }

  // ---- one read more ----

  lemma FlatSnoc(pieces: seq<seq<byte>>, data: seq<byte>)
    ensures Flat(pieces + [data]) == Flat(pieces) + data
  {
    FlatConcat(pieces, [data]);
    assert [data][1..] == [] && data + [] == data;
  }

  lemma {:induction false} CoveredLast(pieces: seq<seq<byte>>, data: seq<byte>, e: int)
    requires |Flat(pieces)| < e <= |Flat(pieces)| + |data|
    ensures Covered(pieces + [data], e) == |Flat(pieces)| + |data|
    decreases |pieces|
  {
    if pieces == [] {
      assert pieces + [data] == [data];
    } else {
      assert (pieces + [data])[0] == pieces[0] && (pieces + [data])[1..] == pieces[1..] + [data];
      CoveredLast(pieces[1..], data, e - |pieces[0]|);
    }
  }

  lemma {:induction false} CoveredBefore(pieces: seq<seq<byte>>, data: seq<byte>, e: int)
    requires e <= |Flat(pieces)|
    ensures Covered(pieces + [data], e) == Covered(pieces, e)
    decreases |pieces|
  {
    if pieces != [] {
      assert (pieces + [data])[0] == pieces[0] && (pieces + [data])[1..] == pieces[1..] + [data];
      if e > |pieces[0]| {
        CoveredBefore(pieces[1..], data, e - |pieces[0]|);
      }
    }
  }

  lemma Whole1(pieces: seq<seq<byte>>)
    ensures var o := Verdict(pieces); var s := Flat(pieces);
            && (o.Ack? <==> HeadEnd(s).Some? && LooksRight(CLIENT, s) && Covered(pieces, HeadEnd(s).value) <= HEAD_LIMIT)
            && (o.Ack? ==> HeadEnd(s) == Some(|o.head|) && o.head <= s)
  {
    hide HeadEnd, EndsAt, HttpHead.Split;
    NoHeadYet();
    SplitExact(CLIENT, [], pieces);
    assert [] + Flat(pieces) == Flat(pieces);
  }

  /** While there is no head a read decides by what is there then. */
  lemma VerdictNext(pieces: seq<seq<byte>>, data: seq<byte>)
    requires HeadEnd(Flat(pieces)).None?
    ensures var buf := Flat(pieces) + data; var o := Verdict(pieces + [data]);
            && (o.Ack? <==> HeadEnd(buf).Some? && LooksRight(CLIENT, buf) && |buf| <= HEAD_LIMIT)
            && (o.Ack? ==> HeadEnd(buf) == Some(|o.head|) && o.head == buf[..|o.head|])
  {
    hide HeadEnd, EndsAt, HttpHead.Split, Verdict, LooksRight;
    var buf := Flat(pieces) + data;
    FlatSnoc(pieces, data);
    Whole1(pieces + [data]);
    HeadEndStable(Flat(pieces), data);
    if HeadEnd(buf).Some? {
      EndsWithin(buf, HeadEnd(buf).value);
      CoveredLast(pieces, data, HeadEnd(buf).value);
    }
  }

  /** Later reads change nothing about an accepted head. */
  lemma VerdictStays(pieces: seq<seq<byte>>, data: seq<byte>)
    requires Verdict(pieces).Ack?
    ensures Verdict(pieces + [data]).Ack? && Verdict(pieces + [data]).head == Verdict(pieces).head
  {
    hide HeadEnd, EndsAt, HttpHead.Split, Verdict;
    var s := Flat(pieces);
    FlatSnoc(pieces, data);
    Whole1(pieces);
    Whole1(pieces + [data]);
    HeadEndStable(s, data);
    LooksRightPrefix(CLIENT, s, data);
    EndsWithin(s, HeadEnd(s).value);
    CoveredBefore(pieces, data, HeadEnd(s).value);
  }

  // ---- a stream and its reads ----

  /** The frames of an HTTP response that carry a head carry the right one, and what was taken starts with it. */
  predicate Headed(l: Lane, pieces: seq<seq<byte>>) {
    var o := Verdict(pieces);
    && (forall f :: f in Path(l) && f.Lead? ==> o.Ack? && f.head == o.head)
    && (l.drain.sink.Running? && l.drain.ok ==> o.Ack? && |o.head| <= |l.drain.out| + |l.drain.cur|)
  }

  /** What a stream task knows of the response is what has been read of it. */
  predicate Follows(l: Lane, pieces: seq<seq<byte>>) {
    && (!l.created ==> pieces == [])
    && (l.created && l.dir.Up? && l.kind.Http? ==>
          && (l.source.led <==> Verdict(pieces).Ack?)
          && (!l.source.led && !l.source.ended ==> l.source.uncut == Flat(pieces) && HeadEnd(Flat(pieces)).None?)
          && Headed(l, pieces))
  }

  /** Whatever is done about a stream but reading its response. */
  lemma OpFollows(l: Lane, op: Op, pieces: seq<seq<byte>>)
    requires Follows(l, pieces) && Enabled(l, op) && !op.Read?
    ensures Follows(Apply(l, op), pieces)
  {
    hide Verdict, HeadEnd, Headed, Carry, HasFin, LeadCount, EmptyLeads, MayBuffer;
    if l.dir.Up? && l.kind.Http? {
      OpHeaded(l, op, pieces);
    }
  }

  lemma OpHeaded(l: Lane, op: Op, pieces: seq<seq<byte>>)
    requires l.dir.Up? && Headed(l, pieces) && Enabled(l, op) && !op.Read?
    ensures Headed(Apply(l, op), pieces)
  {
    hide Verdict, Path, Carry, HasFin, LeadCount, EmptyLeads, MayBuffer;
    if op.Take? {
      TakeLead(l, op);
    }
    NoNewLeads(l, op);
    if op.Dispatch? {
      PathRouted(l, op.accept);
    } else {
      PathFrom(l, op);
    }
  }

  lemma NoNewLeads(l: Lane, op: Op)
    requires Enabled(l, op) && !op.Read?
    ensures forall f :: f in NewItems(op) ==> !f.Lead?
  {
  }

  lemma TakeLead(l: Lane, op: Op)
    requires Enabled(l, op) && op.Take?
    ensures l.drain.chan[0] in Path(l)
  {
  }

  // ---- reading the response ----

  /** The stream task may read: nothing it has cut is waiting. */
  predicate Reader(u: Lane) {
    u.created && u.dir.Up? && u.kind.Http? && !u.source.ended && u.source.pend == []
  }

  lemma NewPath(u: Lane, data: seq<byte>, items: seq<Item>)
    requires u.source.pend == [] && Enabled(u, Op.Read(data, items))
    ensures Path(Apply(u, Op.Read(data, items))) == Path(u) + items
  {
    hide Carry, LeadCount, EmptyLeads;
  }

  lemma PlainFollows(u: Lane, data: seq<byte>, items: seq<Item>, pieces: seq<seq<byte>>)
    requires Reader(u) && Follows(u, pieces) && u.source.led && Enabled(u, Op.Read(data, items))
    ensures Follows(Apply(u, Op.Read(data, items)), pieces + [data])
  {
    hide Verdict, HeadEnd, Path, Carry, LeadCount, EmptyLeads;
    VerdictStays(pieces, data);
    NewPath(u, data, items);
  }

  /** No blank line yet. */
  lemma BufferFollows(u: Lane, data: seq<byte>, pieces: seq<seq<byte>>)
    requires Reader(u) && Follows(u, pieces) && !u.source.led && Enabled(u, Op.Read(data, []))
    requires HeadEnd(u.source.uncut + data).None?
    ensures Follows(Apply(u, Op.Read(data, [])), pieces + [data])
  {
    hide Verdict, HeadEnd, Path, Carry, LeadCount, EmptyLeads;
    VerdictNext(pieces, data);
    FlatSnoc(pieces, data);
    NewPath(u, data, []);
    assert Path(u) + [] == Path(u);
  }

  /** Too long, or not what a response looks like. */
  lemma RejectFollows(u: Lane, data: seq<byte>, pieces: seq<seq<byte>>)
    requires Reader(u) && Follows(u, pieces) && !u.source.led && Enabled(u, Op.Read(data, []))
    requires var buf := u.source.uncut + data; |buf| > HEAD_LIMIT || (HeadEnd(buf).Some? && !LooksRight(CLIENT, buf))
    ensures var m := Apply(u, Op.Read(data, [])); var last := Finish([Reject, Reject]);
            Enabled(m, last) && Follows(Apply(m, last), pieces + [data])
  {
    hide Verdict, HeadEnd, Path, Carry, LeadCount, EmptyLeads, LooksRight;
    VerdictNext(pieces, data);
    NewPath(u, data, []);
    assert Path(u) + [] == Path(u);
    var m := Apply(u, Op.Read(data, []));
    assert Headed(m, pieces + [data]);
    OpHeaded(m, Finish([Reject, Reject]), pieces + [data]);
  }

  /** The head is complete. */
  lemma HeadFollows(u: Lane, data: seq<byte>, end: nat, rest: seq<Item>, pieces: seq<seq<byte>>)
    requires Reader(u) && Follows(u, pieces) && !u.source.led
    requires var buf := u.source.uncut + data;
             |buf| <= HEAD_LIMIT && HeadEnd(buf) == Some(end) && end <= |buf| && LooksRight(CLIENT, buf) &&
             Enabled(u, Op.Read(data, [Lead(buf[..end])] + rest))
    ensures Follows(Apply(u, Op.Read(data, [Lead((u.source.uncut + data)[..end])] + rest)), pieces + [data])
  {
    hide Verdict, HeadEnd, Path, Carry, EmptyLeads, LooksRight;
    var items := [Lead((u.source.uncut + data)[..end])] + rest;
    VerdictNext(pieces, data);
    NewPath(u, data, items);
    Uncons(items);
    OneLead(items);
  }

  lemma OneLead(items: seq<Item>)
    requires items != [] && items[0].Lead? && LeadCount(items) <= 1
    ensures forall f :: f in items[1..] ==> !f.Lead?
  {
    NoMoreLeads(items[1..]);
  }

  lemma {:induction false} NoMoreLeads(items: seq<Item>)
    requires LeadCount(items) == 0
    ensures forall f :: f in items ==> !f.Lead?
  {
    if items != [] {
      NoMoreLeads(items[1..]);
      assert items == [items[0]] + items[1..];
    }
  }

  // ---- in the session ----

  /** One read of the task, whatever the handshake makes of it. */
  lemma ReadFollows(k: Link, id: u32, data: seq<byte>, pieces: seq<seq<byte>>)
    requires Wf(k) && k.dir.Up? && id in k.lanes && CanRead(View(k, id)) && View(k, id).kind.Http? && Follows(View(k, id), pieces)
    ensures Follows(View(RunSteps(k, LocalSteps(id, View(k, id), data)), id), pieces + [data])
  {
    hide Follows, View, RunSteps, AllEnabled, StepEnabled, Apply, Enabled, HeadEnd, LooksRight, Chunks;
    var u := View(k, id);
    var buf := u.source.uncut + data;
    LocalReady(k, id, data);
    ReadOps(k, id, data);
    if !MayBuffer(u) {
      OneLocal(k, id, Op.Read(data, Chunks(data, Frames.MAX_FRAME_PAYLOAD)));
      PlainFollows(u, data, Chunks(data, Frames.MAX_FRAME_PAYLOAD), pieces);
    } else if |buf| > HEAD_LIMIT || (HeadEnd(buf).Some? && !LooksRight(CLIENT, buf)) {
      RejectFollows(u, data, pieces);
      TwoLocalSteps(k, id, Op.Read(data, []), Finish([Reject, Reject]));
    } else if HeadEnd(buf).None? {
      OneLocal(k, id, Op.Read(data, []));
      BufferFollows(u, data, pieces);
    } else {
      var end := HeadEnd(buf).value;
      var rest := Chunks(buf[end..], Frames.MAX_FRAME_PAYLOAD);
      OneLocal(k, id, Op.Read(data, [Lead(buf[..end])] + rest));
      HeadFollows(u, data, end, rest, pieces);
    }
  }

  /** The first step is a read that is possible. */
  lemma ReadOps(k: Link, id: u32, data: seq<byte>)
    requires Wf(k) && AllEnabled(k, LocalSteps(id, View(k, id), data)) && id in k.lanes
    ensures var st := LocalSteps(id, View(k, id), data)[0]; st.Local? && StepEnabled(k, st) && Enabled(View(k, id), st.op)
    ensures HeadEnd(View(k, id).source.uncut + data).Some? ==>
              HeadEnd(View(k, id).source.uncut + data).value <= |View(k, id).source.uncut + data|
  {
    hide View, StepApply, Enabled, HeadEnd, LooksRight, Chunks;
    var buf := View(k, id).source.uncut + data;
    if HeadEnd(buf).Some? {
      EndsWithin(buf, HeadEnd(buf).value);
    }
  }

  /** Steps that read nothing for `t` and do not open it. */
  predicate Silent(st: Step, t: u32) {
    match st
    case Local(id, op) => id == t ==> !op.Read?
    case Create(id, _) => id != t
    case Reserve(id) => id != t
    case _ => true
  }

  lemma StepFollows(k: Link, st: Step, t: u32, pieces: seq<seq<byte>>)
    requires LinkInv(k) && StepEnabled(k, st) && Silent(st, t) && Follows(View(k, t), pieces)
    ensures Follows(View(StepApply(k, st), t), pieces)
  {
    hide Project, Decode, Encode, Fits, Apply, Enabled, Route, Good, Follows;
    var op := OpFor(k, st, t);
    if op.Some? {
      Simulates(k, st, t);
      OpFollows(View(k, t), op.value, pieces);
    } else {
      Isolated(k, st, t);
    }
  }

  lemma {:induction false} StepsFollow(k: Link, steps: seq<Step>, t: u32, pieces: seq<seq<byte>>)
    requires LinkInv(k) && Follows(View(k, t), pieces) && forall st :: st in steps ==> Silent(st, t)
    ensures Follows(View(RunSteps(k, steps), t), pieces)
    decreases |steps|
  {
    hide LinkInv, StepEnabled, StepApply, View, Follows;
    if steps != [] {
      assert steps[0] in steps;
      if StepEnabled(k, steps[0]) {
        StepFollows(k, steps[0], t, pieces);
        KeepLink(k, steps[0]);
        StepsFollow(StepApply(k, steps[0]), steps[1..], t, pieces);
      } else {
        StepsFollow(k, steps[1..], t, pieces);
      }
    }
  }

  /** A stream that has been opened stays what it is. */
  predicate Other(l: Lane) {
    l.created && !l.kind.Http?
  }

  lemma OtherFollows(l: Lane, pieces: seq<seq<byte>>)
    requires Other(l)
    ensures Follows(l, pieces)
  {
  }

  lemma StepOther(k: Link, st: Step, t: u32)
    requires LinkInv(k) && StepEnabled(k, st) && st.Local? && Other(View(k, t))
    ensures Other(View(StepApply(k, st), t))
  {
    hide Project, Decode, Encode, Fits, Apply, Enabled, Route, Good;
    Simulates(k, st, t);
    if st.id == t {
      LocalFrame(View(k, t), st.op);
    }
  }

  lemma {:induction false} StepsOther(k: Link, steps: seq<Step>, t: u32)
    requires LinkInv(k) && Other(View(k, t)) && forall st :: st in steps ==> st.Local?
    ensures Other(View(RunSteps(k, steps), t))
    decreases |steps|
  {
    hide LinkInv, StepEnabled, StepApply, View, Other;
    if steps != [] {
      assert steps[0] in steps;
      if StepEnabled(k, steps[0]) {
        StepOther(k, steps[0], t);
        KeepLink(k, steps[0]);
        StepsOther(StepApply(k, steps[0]), steps[1..], t);
      } else {
        StepsOther(k, steps[1..], t);
      }
    }
  }

  /** The labels that read something into the reply of `t`. */
  predicate IsRead(l: Label, t: u32) {
    l.Task? && l.id == t && (l.task.LocalRead? || l.task.TcpAck?)
  }

  lemma UpSilent(s: Tunnel, l: Label, t: u32)
    requires !IsRead(l, t) && !((l.Accept? || l.DrawId?) && NextId(s.issued) == t)
    ensures forall st :: st in UpSteps(s, l) ==> Silent(st, t)
  {
    hide View, Chunks, HeadEnd, EndsAt, StepEnabled;
  }

  /** Nobody has read anything for a stream that is only being opened. */
  lemma OpeningFollows(s: Tunnel, l: Label, t: u32, pieces: seq<seq<byte>>)
    requires TunnelInv(s) && Guard(s, l) && s.issued < ID_SPACE && (l.Accept? || l.DrawId?) && NextId(s.issued) == t
    requires Follows(U(s, t), pieces)
    ensures Follows(U(Next(s, l), t), pieces)
  {
    hide LinkInv, StepEnabled, Rejected, Inv, Follows, Fits;
    if l.Accept? {
      AcceptReady(s, l.kind, l.head);
      RunOne(s.up, Create(t, StartUp(l.kind)));
      FreshView(s.up, t, pieces);
      CreatedView(s.up, t, StartUp(l.kind));
      FreshFollows(l.kind);
    } else {
      DrawReady(s);
      RunOne(s.up, Reserve(t));
      FreshView(s.up, t, pieces);
      ReservedFollows(s.up, t);
    }
  }

  lemma FreshView(k: Link, t: u32, pieces: seq<seq<byte>>)
    requires t !in k.lanes && Follows(View(k, t), pieces)
    ensures pieces == []
  {
    hide Project;
  }

  lemma CreatedView(k: Link, t: u32, lane: Lane)
    requires LinkInv(k) && StepEnabled(k, Create(t, lane))
    ensures View(StepApply(k, Create(t, lane)), t) == lane
  {
    hide Project, Fits;
    assert Inv(View(k, t));
  }

  lemma FreshFollows(kind: OpenMetas.StreamKind)
    ensures Follows(StartUp(kind), [])
  {
    assert Path(StartUp(kind)) == [];
    NoHeadYet();
  }

  lemma ReservedFollows(k: Link, t: u32)
    requires StepEnabled(k, Reserve(t))
    ensures Follows(View(StepApply(k, Reserve(t)), t), [])
  {
    hide Project;
  }

  lemma LabelFollows(s: Tunnel, l: Label, t: u32, pieces: seq<seq<byte>>)
    requires TunnelInv(s) && Guard(s, l) && (l.Accept? || l.DrawId? ==> s.issued < ID_SPACE) && Follows(U(s, t), pieces)
    ensures Follows(U(Next(s, l), t), pieces + ReadOf(l, t))
  {
    hide LinkInv, UpSteps, DownSteps, RunSteps, Rejected, Guard, Follows, View, LocalSteps;
    Both(s);
    assert pieces + [] == pieces;
    if IsRead(l, t) {
      TaskReads(s, l, t, pieces);
    } else if (l.Accept? || l.DrawId?) && NextId(s.issued) == t {
      OpeningFollows(s, l, t, pieces);
    } else {
      UpSilent(s, l, t);
      StepsFollow(s.up, UpSteps(s, l), t, pieces);
    }
  }

  lemma TaskReads(s: Tunnel, l: Label, t: u32, pieces: seq<seq<byte>>)
    requires TunnelInv(s) && Guard(s, l) && IsRead(l, t) && Follows(U(s, t), pieces)
    ensures Follows(U(Next(s, l), t), pieces + ReadOf(l, t))
  {
    hide LinkInv, RunSteps, Rejected, Follows, View, HeadEnd, Chunks, MayBuffer, Good;
    Both(s);
    Shaped(s.up);
    Standing(s, t);
    UpFacts(U(s, t));
    ViewDir(s.up, t);
    if U(s, t).kind.Http? {
      ReadFollows(s.up, t, l.task.data, pieces);
    } else {
      StepsOther(s.up, UpSteps(s, l), t);
      OtherFollows(U(Next(s, l), t), pieces + ReadOf(l, t));
    }
  }

  lemma {:induction false} RunFollows(s: Tunnel, run: seq<Label>, t: u32, pieces: seq<seq<byte>>)
    requires TunnelInv(s) && Possible(s, run) && After(s, run).issued <= ID_SPACE && Follows(U(s, t), pieces)
    ensures Follows(U(After(s, run), t), pieces + Pieces(run, t))
    decreases |run|
  {
    hide Guard, DownSteps, UpSteps, RunSteps, Rejected, TunnelInv, View, Follows;
    if run == [] {
      assert pieces + [] == pieces;
    } else {
      var m := Next(s, run[0]);
      IssuedGrows(m, run[1..]);
      KeepTunnel(s, run[0]);
      LabelFollows(s, run[0], t, pieces);
      RunFollows(m, run[1..], t, pieces + ReadOf(run[0], t));
      assert pieces + ReadOf(run[0], t) + Pieces(run[1..], t) == pieces + (ReadOf(run[0], t) + Pieces(run[1..], t));
    }
  }

  /** The reads of the run are what its local socket has sent. */
  lemma {:induction false} PiecesSent(s: Tunnel, run: seq<Label>, t: u32)
    requires Possible(s, run)
    ensures Flat(Pieces(run, t)) == Seen(s, run, t).localSent
    decreases |run|
  {
    hide Guard, DownSteps, UpSteps, RunSteps, Rejected, View, FromVisitor, ToLocal, ToVisitor;
    if run != [] {
      PiecesSent(Next(s, run[0]), run[1..], t);
      FlatConcat(ReadOf(run[0], t), Pieces(run[1..], t));
      FlatRead(run[0], t);
    }
  }

  lemma FlatRead(l: Label, t: u32)
    ensures Flat(ReadOf(l, t)) == FromLocal(l, t)
  {
    if ReadOf(l, t) != [] {
      assert ReadOf(l, t)[1..] == [];
      assert l.task.data + [] == l.task.data;
    }
  }

  /** What an HTTP response lane tells about the whole response. */
  predicate Answers(u: Lane, got: seq<byte>, sent: seq<byte>, o: Outcome) {
    && (u.source.led <==> o.Ack?)
    && (o.Ack? ==> HeadEnd(sent) == Some(|o.head|) && o.head <= sent)
    && (forall f :: f in Path(u) && f.Lead? ==> o.Ack? && f.head == o.head)
    && (u.drain.sink.Running? && u.drain.ok ==> o.Ack? && o.head <= got + u.drain.cur)
  }

  /**
   * In every run: the stream task has accepted a response exactly when `HttpHead.Split` accepts its reads; the OpenAck
   * on its way carries what the local service has sent up to its first blank line; and once the visitor's side has
   * taken it, what the visitor got and is being given starts with it.
   */
  lemma HandshakeIsSplit(run: seq<Label>, id: u32)
    requires Session(run)
    ensures var u := U(After(INIT, run), id); var pieces := Pieces(run, id); var seen := Seen(INIT, run, id);
            && Flat(pieces) == seen.localSent
            && (u.created && u.kind.Http? ==> Answers(u, seen.visitorGot, seen.localSent, HttpHead.Split(CLIENT, [], pieces)))
  {
    hide Possible, After, Project, Seen, View, LinkInv, HttpHead.Split, HeadEnd, EndsAt, Path, Carry;
    Endpoints(run, id);
    InitInv();
    PiecesSent(INIT, run, id);
    StartFollows(id);
    RunFollows(INIT, run, id, []);
    assert [] + Pieces(run, id) == Pieces(run, id);
    Directions(After(INIT, run), id);
    Whole1(Pieces(run, id));
    var u := U(After(INIT, run), id);
    if u.created && u.kind.Http? && u.drain.sink.Running? && u.drain.ok {
      Prefix(u, Verdict(Pieces(run, id)).head);
    }
  }

  lemma StartFollows(id: u32)
    ensures Follows(U(INIT, id), [])
  {
  }

  lemma Prefix(u: Lane, head: seq<byte>)
    requires Good(u) && u.drain.sink.Running? && u.drain.ok && head <= u.source.read && |head| <= |u.drain.out| + |u.drain.cur|
    ensures head <= u.drain.out + u.drain.cur
  {
    hide Carry, HasFin, FinLast, LeadCount, LeadFirst, EmptyLeads, Path;
    assert u.drain.out + u.drain.cur <= Sure(u);
  }
}
