/** What the items of one direction of one stream mean, and sequences of them. */
module Items {
  import opened Bytes

  const CLOSE_OK: byte := 0
  const CLOSE_APP_ERROR: byte := 1

  datatype Item =
    | Lead(head: seq<byte>)   // Open towards the client, OpenAck towards the broker
    | Chunk(data: seq<byte>)
    | End(code: byte)
    | Reject
    | Noise                   // a frame that means nothing to this direction

  function Carried(f: Item): seq<byte> {
    match f
    case Lead(head) => head
    case Chunk(data) => data
    case _ => []
  }

  predicate IsLead(f: Item) {
    f.Lead?
  }

  /** A regular end of the byte stream. */
  predicate IsFin(f: Item) {
    f == End(CLOSE_OK)
  }

  /** Neither carries bytes nor starts or regularly ends a stream. */
  predicate IsJunk(f: Item) {
    f.Reject? || f.Noise? || (f.End? && f.code != CLOSE_OK)
  }

  function Carry(fs: seq<Item>): seq<byte> {
    if fs == [] then [] else Carried(fs[0]) + Carry(fs[1..])
  }

  /** Pieces of a byte stream, put together. */
  function Flat(pieces: seq<seq<byte>>): seq<byte> {
    if pieces == [] then [] else pieces[0] + Flat(pieces[1..])
  }

  predicate HasFin(fs: seq<Item>) {
    fs != [] && (IsFin(fs[0]) || HasFin(fs[1..]))
  }

  /** No bytes follow a regular end. */
  predicate FinLast(fs: seq<Item>) {
    fs == [] || ((IsFin(fs[0]) ==> Carry(fs[1..]) == []) && FinLast(fs[1..]))
  }

  function LeadCount(fs: seq<Item>): nat {
    if fs == [] then 0 else (if IsLead(fs[0]) then 1 else 0) + LeadCount(fs[1..])
  }

  /** Nothing but junk comes before the one lead frame. */
  predicate LeadFirst(fs: seq<Item>) {
    fs == [] || (if IsLead(fs[0]) then LeadCount(fs[1..]) == 0 else IsJunk(fs[0]) && LeadFirst(fs[1..]))
  }

  predicate EmptyLeads(fs: seq<Item>) {
    fs == [] || ((IsLead(fs[0]) ==> Carried(fs[0]) == []) && EmptyLeads(fs[1..]))
  }

  lemma Nil()
    ensures Carry([]) == [] && LeadCount([]) == 0 && !HasFin([]) && FinLast([]) && EmptyLeads([])
  {
  }

  lemma One(f: Item)
    ensures Carry([f]) == Carried(f) && LeadCount([f]) == (if IsLead(f) then 1 else 0)
    ensures (HasFin([f]) <==> IsFin(f)) && FinLast([f]) && (EmptyLeads([f]) <==> IsLead(f) ==> Carried(f) == [])
  {
    assert [f][1..] == [];
  }

  /** What the first frame contributes. */
  lemma Uncons(fs: seq<Item>)
    requires fs != []
    ensures Carry(fs) == Carried(fs[0]) + Carry(fs[1..])
    ensures LeadCount(fs) == (if IsLead(fs[0]) then 1 else 0) + LeadCount(fs[1..])
    ensures HasFin(fs) <==> IsFin(fs[0]) || HasFin(fs[1..])
    ensures FinLast(fs) <==> (IsFin(fs[0]) ==> Carry(fs[1..]) == []) && FinLast(fs[1..])
    ensures EmptyLeads(fs) <==> (IsLead(fs[0]) ==> Carried(fs[0]) == []) && EmptyLeads(fs[1..])
  {
  }

  lemma Join(x: seq<byte>, y: seq<byte>, z: seq<byte>)
    ensures x + y + z == x + (y + z)
  {
  }

  /** How the measures of a sequence are made up from those of its two parts. */
  lemma {:induction false} Concat(a: seq<Item>, b: seq<Item>)
    ensures Carry(a + b) == Carry(a) + Carry(b)
    ensures LeadCount(a + b) == LeadCount(a) + LeadCount(b)
    ensures HasFin(a + b) <==> HasFin(a) || HasFin(b)
    ensures EmptyLeads(a + b) <==> EmptyLeads(a) && EmptyLeads(b)
    ensures FinLast(a + b) <==> FinLast(a) && FinLast(b) && (HasFin(a) ==> Carry(b) == [])
  {
    var c := a + b;
    if a == [] {
      assert c == b;
    } else {
      Concat(a[1..], b);
      assert c[1..] == a[1..] + b && c[0] == a[0];
      Join(Carried(a[0]), Carry(a[1..]), Carry(b));
    }
  }

  /** Frames of a kind a task may queue as data: no end among them, so no bytes can follow one. */
  lemma {:induction false} NoFins(g: seq<Item>)
    requires forall f :: f in g ==> !IsFin(f)
    ensures !HasFin(g) && FinLast(g)
  {
    if g != [] {
      assert g[0] in g;
      NoFins(g[1..]);
    }
  }

  lemma {:induction false} NoLeads(g: seq<Item>)
    requires forall f :: f in g ==> !IsLead(f)
    ensures LeadCount(g) == 0 && EmptyLeads(g)
  {
    if g != [] {
      assert g[0] in g;
      NoLeads(g[1..]);
    }
  }

  /** Frames that carry nothing keep any order of ends. */
  lemma {:induction false} NoBytes(g: seq<Item>)
    requires forall f :: f in g ==> Carried(f) == []
    ensures FinLast(g) && Carry(g) == []
  {
    if g != [] {
      NoBytes(g[1..]);
      assert g[0] in g;
    }
  }

  lemma UnconsLeadFirst(fs: seq<Item>)
    requires fs != []
    ensures LeadFirst(fs) <==> if IsLead(fs[0]) then LeadCount(fs[1..]) == 0 else IsJunk(fs[0]) && LeadFirst(fs[1..])
  {
  }

  lemma {:induction false} LeadFirstInsert(a: seq<Item>, j: Item, b: seq<Item>)
    requires IsJunk(j) && LeadFirst(a + b)
    ensures LeadFirst(a + [j] + b)
  {
    if a == [] {
      assert a + [j] + b == [j] + b;
      assert ([j] + b)[1..] == b == a + b;
    } else {
      assert (a + [j] + b)[1..] == a[1..] + [j] + b;
      assert (a + b)[1..] == a[1..] + b;
      if IsLead(a[0]) {
        Concat(a[1..], b);
        Concat(a[1..], [j]);
        Concat(a[1..] + [j], b);
        One(j);
      } else {
        LeadFirstInsert(a[1..], j, b);
      }
    }
  }

  /** Once the lead frame is there anything but another lead may follow; before, only junk. */
  lemma {:induction false} LeadFirstAppend(fs: seq<Item>, g: seq<Item>)
    requires LeadFirst(fs) && LeadCount(g) == 0 && (LeadCount(fs) == 1 || forall f :: f in g ==> IsJunk(f))
    ensures LeadFirst(fs + g)
  {
    if fs == [] {
      assert fs + g == g;
      JunkLeadFirst(g);
    } else {
      assert (fs + g)[1..] == fs[1..] + g;
      if IsLead(fs[0]) {
        Concat(fs[1..], g);
      } else {
        LeadFirstAppend(fs[1..], g);
      }
    }
  }

  lemma {:induction false} JunkLeadFirst(g: seq<Item>)
    requires forall f :: f in g ==> IsJunk(f)
    ensures LeadFirst(g)
  {
    if g != [] {
      JunkLeadFirst(g[1..]);
      assert g[0] in g;
    }
  }

  /** Cutting the tail off: if the lead is in it, only junk is left. */
  lemma {:induction false} LeadFirstPrefix(a: seq<Item>, b: seq<Item>)
    requires LeadFirst(a + b)
    ensures LeadFirst(a)
    ensures LeadCount(b) > 0 ==> Carry(a) == [] && !HasFin(a)
  {
    if a != [] {
      assert (a + b)[1..] == a[1..] + b;
      if IsLead(a[0]) {
        Concat(a[1..], b);
      } else {
        LeadFirstPrefix(a[1..], b);
      }
    }
  }
}

/**
 * One direction of one stream, seen on its own: a reading task cuts bytes into items, the items are on their
 * way, the receiving loop routes them by a table entry into a bounded channel, and a writing task empties it.
 *
 * `Down` runs from the broker's visitor to the client's local service, `Up` runs back.
 */
module Lanes {
  import opened Bytes
  import opened Items
  import OpenMetas

  datatype Dir = Down | Up

  /** The receiving side's table entry: not there yet, there, or removed. */
  datatype Entry = Waiting | Live | Gone

  datatype Sink = AwaitLead | Running | Stopped

  /** The end that reads: a task that cuts bytes into frames and queues them one after the other. */
  datatype Source = Source(
    read: seq<byte>,     // everything this end has read so far (history)
    uncut: seq<byte>,    // read, but not yet cut into frames
    pend: seq<Item>,     // cut, waiting for room in the shared queue
    led: bool,           // the lead frame has been cut
    ended: bool,         // this end cuts no more data
    lost: bool           // bytes, or the lead frame, were thrown away before they were queued (history)
  )

  /** The end that writes: table entry, bounded channel, and the writing task that empties it. */
  datatype Drain = Drain(
    entry: Entry,
    chan: seq<Item>,
    rx: bool,            // the channel still has its receiver
    sink: Sink,
    cur: seq<byte>,      // being written out
    out: seq<byte>,      // everything written out (history)
    ok: bool,            // no write has failed
    fin: Option<byte>    // the code of the Close the sink has seen
  )

  datatype Lane = Lane(
    dir: Dir,
    kind: OpenMetas.StreamKind,
    created: bool,
    source: Source,
    flow: seq<Item>,     // this stream's frames in the shared queue and on the socket
    hold: seq<Item>,     // the frame the receiving loop is trying to put into the channel
    drain: Drain
  )

  datatype Op =
    | Read(data: seq<byte>, items: seq<Item>)
    | Finish(items: seq<Item>)
    | Abort
    | Push
    | Inject(item: Item)
    | Dispatch(accept: bool)
    | Deliver
    | DeliverClosed
    | Stall
    | Take
    | Write(n: nat)
    | WriteFail(drain: bool)
    | Stop
    | CloseRx
    | Clear

  const CLIENT_STREAM_CAP: nat := 64
  const STREAM_QUEUE_CAP: nat := 8

  function ChanCap(d: Dir): nat {
    if d.Down? then CLIENT_STREAM_CAP else STREAM_QUEUE_CAP
  }

  const NO_SOURCE: Source := Source([], [], [], false, false, false)
  const NO_DRAIN: Drain := Drain(Waiting, [], true, AwaitLead, [], [], true, None)

  /** A stream nobody has opened. */
  function Unused(d: Dir): Lane {
    Lane(d, OpenMetas.Tcp, false, NO_SOURCE, [], [], NO_DRAIN)
  }

  /** The broker opens a stream: its request head, if any, travels inside the Open frame. */
  function StartDown(kind: OpenMetas.StreamKind, head: seq<byte>): Lane {
    Lane(Down, kind, true, NO_SOURCE.(led := true, read := head, pend := [Lead(head)]), [], [], NO_DRAIN)
  }

  /** The broker enters the stream into its own table before it sends the Open frame. */
  function StartUp(kind: OpenMetas.StreamKind): Lane {
    Lane(Up, kind, true, NO_SOURCE, [], [], NO_DRAIN.(entry := Live, sink := if kind.Http? then AwaitLead else Running))
  }

  /** Only the HTTP handshake keeps bytes back, until it has seen the whole head. */
  predicate MayBuffer(l: Lane) {
    l.dir.Up? && l.kind.Http? && !l.source.led
  }

  /** What a reading task queues: exactly the bytes it has read, behind the lead frame if that is due. */
  predicate Cuttable(l: Lane, data: seq<byte>, items: seq<Item>) {
    Carry(items) == l.source.uncut + data && (LeadCount(items) == 0 ==> l.source.led || !l.kind.Http?) &&
    (forall f :: f in items ==> f.Chunk? || (IsLead(f) && l.dir.Up? && !l.source.led)) &&
    LeadCount(items) <= 1 && (l.kind.Http? || EmptyLeads(items))
  }

  /** What it may queue last: a regular end only if nothing it has read was thrown away. */
  predicate Closing(l: Lane, items: seq<Item>) {
    forall f :: f in items ==> IsJunk(f) || (IsFin(f) && !l.source.lost && l.source.uncut == [])
  }

  predicate Enabled(l: Lane, op: Op) {
    l.created &&
    match op
    case Read(data, items) =>
      !l.source.ended && l.source.pend == [] && ((items == [] && MayBuffer(l)) || Cuttable(l, data, items))
    case Finish(items) => l.source.pend == [] && Closing(l, items)
    case Abort => true
    case Push => l.source.pend != []
    case Inject(f) => IsJunk(f)
    case Dispatch(_) => l.flow != [] && l.hold == []
    case Deliver => l.hold != [] && l.drain.rx && |l.drain.chan| < ChanCap(l.dir)
    case DeliverClosed => l.hold != [] && !l.drain.rx
    case Stall => l.dir.Up? && l.hold != []
    case Take => l.drain.rx && !l.drain.sink.Stopped? && (l.dir.Up? || l.drain.sink.Running?) && l.drain.cur == [] && l.drain.chan != []
    case Write(n) => l.drain.sink.Running? && 0 < n <= |l.drain.cur|
    case WriteFail(drain) => l.drain.sink.Running? && l.drain.cur != []
    case Stop => l.drain.sink.Running? || (l.dir.Up? && l.drain.sink.AwaitLead?)
    case CloseRx => !l.drain.entry.Waiting?
    case Clear => l.drain.entry.Live?
  }

  function Apply(l: Lane, op: Op): Lane
    requires Enabled(l, op)
  {
    var s := l.source;
    var d := l.drain;
    match op
    case Read(data, items) =>
      if items == [] && MayBuffer(l) then l.(source := s.(read := s.read + data, uncut := s.uncut + data))
      else l.(source := s.(read := s.read + data, pend := items, uncut := [], led := s.led || LeadCount(items) > 0))
    case Finish(items) =>
      l.(source := s.(pend := items, uncut := [], ended := true, lost := s.lost || s.uncut != []))
    case Abort =>
      l.(source := s.(pend := [], uncut := [], ended := true,
        lost := s.lost || s.uncut != [] || Carry(s.pend) != [] || (l.dir.Down? && LeadCount(s.pend) > 0)))
    case Push => l.(source := s.(pend := s.pend[1..]), flow := l.flow + [s.pend[0]])
    case Inject(f) => l.(flow := l.flow + [f])
    case Dispatch(accept) =>
      var r := Route(l.dir, d, l.flow[0], accept);
      l.(flow := l.flow[1..], drain := r.drain, hold := r.hold)
    case Deliver => l.(drain := d.(chan := d.chan + l.hold), hold := [])
    case DeliverClosed => l.(hold := [])
    case Stall => l.(drain := d.(entry := Gone), hold := [])
    case Take => l.(drain := Consume(d.(chan := d.chan[1..]), d.chan[0]))
    case Write(n) => l.(drain := d.(out := d.out + d.cur[..n], cur := d.cur[n..]))
    case WriteFail(drain) => l.(drain := d.(ok := false, cur := [], sink := if drain then Running else Stopped))
    case Stop => l.(drain := d.(sink := Stopped, cur := []))
    case CloseRx => l.(drain := d.(rx := false, sink := Stopped, cur := []))
    case Clear => l.(drain := d.(entry := Gone))
  }

  datatype Routed = Routed(drain: Drain, hold: seq<Item>)

  /** A receiving loop meets one frame of this stream. */
  function Route(dir: Dir, d: Drain, f: Item, accept: bool): (r: Routed)
    ensures |r.hold| <= 1
  {
    if dir.Down? then DispatchDown(d, f, accept) else DispatchUp(d, f)
  }

  /** The client's receive loop. */
  function DispatchDown(d: Drain, f: Item, accept: bool): Routed {
    match f
    case Lead(head) =>
      if d.entry.Live? then Routed(d, [])
      else if accept then Routed(Drain(Live, [], true, Running, head, [], true, None), [])
      else Routed(d.(entry := Gone, sink := Stopped, rx := false), [])
    case Chunk(data) => if d.entry.Live? then Routed(d, [f]) else Routed(d, [])
    case End(code) => if d.entry.Live? then Routed(d.(entry := Gone), [f]) else Routed(d, [])
    case _ => Routed(d, [])
  }

  /** `route_frame`: try the channel, drop the entry when the receiver is gone, wait when it is full. */
  function DispatchUp(d: Drain, f: Item): Routed {
    if !d.entry.Live? then Routed(d, [])
    else if !d.rx then Routed(d.(entry := Gone), [])
    else if |d.chan| < STREAM_QUEUE_CAP then Routed(d.(chan := d.chan + [f]), [])
    else Routed(d, [f])
  }

  /** The writing task takes the next message off its channel. */
  function Consume(d: Drain, f: Item): Drain {
    if d.sink.AwaitLead? then
      if f.Lead? then d.(sink := Running, cur := f.head)
      else d.(sink := Stopped, fin := if f.End? then Some(f.code) else None)
    else match f
      case Chunk(data) => if d.ok then d.(cur := data) else d
      case End(code) => d.(sink := Stopped, fin := Some(code))
      case _ => d
  }

  // ---- the invariant ----

  /** The writing task may still write what it is given. */
  predicate Feeding(l: Lane) {
    l.drain.ok && !l.drain.sink.Stopped?
  }

  /** The frames the receiving end already has. */
  function Near(l: Lane): seq<Item> {
    l.drain.chan + l.hold
  }

  /** All frames between the two tasks, oldest first. */
  function Path(l: Lane): seq<Item> {
    Near(l) + (l.flow + l.source.pend)
  }

  /** Written, or certain to reach the writing task. */
  function Sure(l: Lane): seq<byte> {
    l.drain.out + l.drain.cur + Carry(Near(l))
  }

  /** Everything still accounted for. */
  function Whole(l: Lane): seq<byte> {
    l.drain.out + l.drain.cur + Carry(Path(l)) + l.source.uncut
  }

  predicate BytesInv(l: Lane) {
    && l.drain.out <= l.source.read
    && (Feeding(l) ==> Sure(l) <= l.source.read)
    && (Feeding(l) && !l.drain.entry.Gone? ==> Whole(l) <= l.source.read && (!l.source.lost ==> Whole(l) == l.source.read))
    && (l.source.lost ==> l.source.ended && Carry(l.source.pend) == [] && l.source.uncut == [])
    && (l.source.uncut != [] ==> MayBuffer(l) && !l.source.ended && l.source.pend == [])
  }

  predicate Finished(l: Lane) {
    l.drain.fin == Some(CLOSE_OK)
  }

  predicate FinInv(l: Lane) {
    && FinLast(Path(l))
    && (Finished(l) ==> Carry(Path(l)) == [])
    && (Finished(l) || HasFin(Path(l)) ==> l.source.ended && !l.source.lost && l.source.uncut == [])
    && (Feeding(l) && HasFin(Near(l)) ==> Sure(l) == l.source.read)
    && (Finished(l) && l.drain.ok ==> l.drain.out == l.source.read && l.drain.sink.Stopped?)
  }

  predicate LeadInv(l: Lane) {
    match l.dir
    case Down =>
      && l.source.led && LeadCount(Near(l)) == 0
      && (l.drain.entry.Waiting? ==>
            l.drain.sink.AwaitLead? && l.drain.fin.None? && l.drain.out == [] && l.drain.chan == [] && l.hold == [] &&
            LeadFirst(Path(l)) && (!l.source.lost ==> LeadCount(Path(l)) == 1))
      && (!l.drain.entry.Waiting? ==> !l.drain.sink.AwaitLead? && LeadCount(Path(l)) == 0)
    case Up =>
      && !l.drain.entry.Waiting?
      && (l.kind.Http? ==>
            LeadCount(Path(l)) <= (if l.source.led && !l.drain.sink.Running? then 1 else 0) && (l.drain.sink.Running? ==> l.source.led))
      && (!l.kind.Http? ==> !l.drain.sink.AwaitLead? && EmptyLeads(Path(l)))
  }

  predicate TaskInv(l: Lane) {
    && |l.hold| <= 1
    && (!l.drain.rx ==> l.drain.sink.Stopped?)
    && (l.drain.sink.AwaitLead? ==> l.drain.ok)
    && (l.drain.cur != [] ==> l.drain.ok && l.drain.sink.Running?)
  }

  predicate Good(l: Lane) {
    l.created && TaskInv(l) && BytesInv(l) && FinInv(l) && LeadInv(l)
  }

  predicate Inv(l: Lane) {
    if l.created then Good(l) else l == Unused(l.dir)
  }

  // ---- every operation keeps it; frame sequences are dealt with by the lemmas about them alone ----

  /** `Near` and the rest of the path, measured separately. */
  lemma Split(l: Lane)
    ensures Carry(Path(l)) == Carry(Near(l)) + Carry(l.flow + l.source.pend)
    ensures LeadCount(Path(l)) == LeadCount(Near(l)) + LeadCount(l.flow + l.source.pend)
    ensures HasFin(Path(l)) <==> HasFin(Near(l)) || HasFin(l.flow + l.source.pend)
    ensures FinLast(Path(l)) && HasFin(Near(l)) ==> Carry(l.flow + l.source.pend) == []
    ensures Sure(l) <= Whole(l)
  {
    Concat(Near(l), l.flow + l.source.pend);
    assert Whole(l) == Sure(l) + (Carry(l.flow + l.source.pend) + l.source.uncut);
  }

  /** Taking frames out of the middle of a path cannot break the order of ends. */
  lemma Remove(a: seq<Item>, x: seq<Item>, b: seq<Item>)
    ensures FinLast(a + x + b) ==> FinLast(a + b)
    ensures HasFin(a + b) ==> HasFin(a + x + b)
    ensures Carry(a + x + b) == [] ==> Carry(a + b) == []
    ensures LeadCount(a + b) <= LeadCount(a + x + b)
    ensures EmptyLeads(a + x + b) ==> EmptyLeads(a + b)
    ensures Carry(x) == [] ==> Carry(a + b) == Carry(a + x + b)
    ensures LeadCount(x) == 0 ==> LeadCount(a + b) == LeadCount(a + x + b)
  {
    hide Carry, HasFin, FinLast, LeadCount, LeadFirst, EmptyLeads;
    Concat(a, x);
    Concat(a + x, b);
    Concat(a, b);
  }

  /** New frames enter an empty `pend`: the path grows at its end. */
  lemma Grow(l: Lane, items: seq<Item>)
    requires l.source.pend == []
    ensures var l' := l.(source := l.source.(pend := items)); Near(l') == Near(l) && Path(l') == Path(l) + items
    ensures Carry(l.source.pend) == []
  {
  }

  lemma KeepBuffer(l: Lane, data: seq<byte>)
    requires Good(l) && Enabled(l, Read(data, [])) && MayBuffer(l)
    ensures Good(Apply(l, Read(data, [])))
  {
    hide Carry, HasFin, FinLast, LeadCount, LeadFirst, EmptyLeads;
    Split(l);
    assert Whole(Apply(l, Read(data, []))) == Whole(l) + data;
  }

  lemma KeepRead(l: Lane, data: seq<byte>, items: seq<Item>)
    requires Good(l) && Enabled(l, Read(data, items)) && !(items == [] && MayBuffer(l))
    ensures Good(Apply(l, Read(data, items)))
  {
    hide Carry, HasFin, FinLast, LeadCount, LeadFirst, EmptyLeads;
    var l' := Apply(l, Read(data, items));
    Nil();
    Grow(l, items);
    assert Near(l') == Near(l) && Path(l') == Path(l) + items;
    Concat(Path(l), items);
    NoFins(items);
    Split(l);
    assert Whole(l') == Whole(l) + data;
    if l.dir.Down? {
      NoLeads(items);
      if l.drain.entry.Waiting? {
        LeadFirstAppend(Path(l), items);
      }
    } else if l.source.led {
      NoLeads(items);
    }
  }

  lemma KeepFinish(l: Lane, items: seq<Item>)
    requires Good(l) && Enabled(l, Finish(items))
    ensures Good(Apply(l, Finish(items)))
  {
    hide Carry, HasFin, FinLast, LeadCount, LeadFirst, EmptyLeads;
    var l' := Apply(l, Finish(items));
    Grow(l, items);
    assert Path(l') == Path(l) + items;
    Concat(Path(l), items);
    NoBytes(items);
    NoLeads(items);
    if l.source.lost || l.source.uncut != [] {
      NoFins(items);
    }
    assert Whole(l) == Whole(l') + l.source.uncut;
    if l.dir.Down? && l.drain.entry.Waiting? {
      LeadFirstAppend(Path(l), items);
    }
  }

  lemma KeepAbort(l: Lane)
    requires Good(l) && Enabled(l, Abort)
    ensures Good(Apply(l, Abort))
  {
    hide Carry, HasFin, FinLast, LeadCount, LeadFirst, EmptyLeads;
    var l' := Apply(l, Abort);
    Nil();
    assert Path(l) == Path(l') + l.source.pend;
    Concat(Path(l'), l.source.pend);
    assert Whole(l) == l'.drain.out + l'.drain.cur + Carry(Path(l')) + (Carry(l.source.pend) + l.source.uncut);
    assert Whole(l') == l'.drain.out + l'.drain.cur + Carry(Path(l'));
    if l.dir.Down? && l.drain.entry.Waiting? {
      LeadFirstPrefix(Path(l'), l.source.pend);
    }
  }

  lemma KeepPush(l: Lane)
    requires Good(l) && Enabled(l, Push)
    ensures Good(Apply(l, Push))
  {
    hide Carry, HasFin, FinLast, LeadCount, LeadFirst, EmptyLeads;
    assert Path(Apply(l, Push)) == Path(l);
    Uncons(l.source.pend);
  }

  lemma KeepInject(l: Lane, f: Item)
    requires Good(l) && Enabled(l, Inject(f))
    ensures Good(Apply(l, Inject(f)))
  {
    hide Carry, HasFin, FinLast, LeadCount, LeadFirst, EmptyLeads;
    var l' := Apply(l, Inject(f));
    var a := Near(l) + l.flow;
    assert Path(l) == a + l.source.pend && Path(l') == a + [f] + l.source.pend;
    One(f);
    Concat(a, l.source.pend);
    Concat(a, [f]);
    Concat(a + [f], l.source.pend);
    if l.dir.Down? && l.drain.entry.Waiting? {
      LeadFirstInsert(a, f, l.source.pend);
    }
  }

  lemma KeepDeliver(l: Lane)
    requires Good(l) && Enabled(l, Deliver)
    ensures Good(Apply(l, Deliver))
  {
    hide Carry, HasFin, FinLast, LeadCount, LeadFirst, EmptyLeads;
    var l' := Apply(l, Deliver);
    assert Near(l') == Near(l) && Path(l') == Path(l);
  }

  /** The first frame on the path moves over to the receiving end. */
  lemma Arrive(l: Lane, l': Lane)
    requires Good(l) && l.flow != [] && l.drain.entry.Live? && l.hold == []
    requires
      || l' == l.(flow := l.flow[1..], hold := [l.flow[0]], drain := l.drain.(entry := l'.drain.entry))
      || l' == l.(flow := l.flow[1..], drain := l.drain.(chan := l.drain.chan + [l.flow[0]]))
    requires !l'.drain.entry.Waiting? && (l.dir.Down? ==> !IsLead(l.flow[0]))
    ensures Good(l')
  {
    hide Carry, HasFin, FinLast, LeadCount, LeadFirst, EmptyLeads, Near, Path;
    ArriveView(l, l');
    Split(l');
  }

  lemma ArriveView(l: Lane, l': Lane)
    requires Good(l) && l.flow != [] && l.drain.entry.Live? && l.hold == []
    requires
      || l' == l.(flow := l.flow[1..], hold := [l.flow[0]], drain := l.drain.(entry := l'.drain.entry))
      || l' == l.(flow := l.flow[1..], drain := l.drain.(chan := l.drain.chan + [l.flow[0]]))
    ensures Path(l') == Path(l) && Whole(l') == Whole(l)
    ensures LeadCount(Near(l')) == LeadCount(Near(l)) + if IsLead(l.flow[0]) then 1 else 0
    ensures HasFin(Near(l')) && Feeding(l) ==> Sure(l') == l.source.read
  {
    hide Carry, HasFin, FinLast, LeadCount, LeadFirst, EmptyLeads;
    assert Near(l') == Near(l) + [l.flow[0]];
    assert Path(l') == Path(l);
    One(l.flow[0]);
    Concat(Near(l), [l.flow[0]]);
    Split(l');
    assert Whole(l') == Sure(l') + (Carry(l'.flow + l'.source.pend) + l'.source.uncut);
  }

  /** The first frame on the path is thrown away by a loop that has no use for it. */
  lemma Discard(l: Lane, l': Lane)
    requires Good(l) && l.flow != [] && !l.drain.entry.Waiting?
    requires l' == l.(flow := l.flow[1..], drain := l.drain.(entry := l'.drain.entry)) && !l'.drain.entry.Waiting?
    requires l'.drain.entry.Live? && !l.drain.sink.Stopped? ==> l.drain.entry.Live? && Carried(l.flow[0]) == []
    ensures Good(l')
  {
    hide Carry, HasFin, FinLast, LeadCount, LeadFirst, EmptyLeads;
    var x := [l.flow[0]];
    One(l.flow[0]);
    assert Path(l) == Near(l) + x + (l'.flow + l'.source.pend) && Path(l') == Near(l) + (l'.flow + l'.source.pend);
    Remove(Near(l), x, l'.flow + l'.source.pend);
  }

  lemma KeepDispatchDown(l: Lane, accept: bool)
    requires l.dir.Down? && Good(l) && Enabled(l, Dispatch(accept))
    ensures Good(Apply(l, Dispatch(accept)))
  {
    var f := l.flow[0];
    var l' := Apply(l, Dispatch(accept));
    if l.drain.entry.Waiting? {
      if !IsLead(f) {
        NotOpen(l, accept);
      } else if accept {
        Accepted(l);
      } else {
        Refused(l);
      }
    } else {
      NotLead(l);
      if l.drain.entry.Live? && (f.Chunk? || f.End?) {
        Arrive(l, l');
      } else {
        Discard(l, l');
      }
    }
  }

  lemma NotLead(l: Lane)
    requires l.dir.Down? && Good(l) && !l.drain.entry.Waiting? && l.flow != []
    ensures !IsLead(l.flow[0])
  {
    Concat(Near(l), l.flow + l.source.pend);
    assert (l.flow + l.source.pend)[0] == l.flow[0];
  }

  /** The first frame of a stream that is not open yet leaves the path. */
  lemma WaitingView(l: Lane, accept: bool)
    requires l.dir.Down? && Good(l) && Enabled(l, Dispatch(accept)) && l.drain.entry.Waiting?
    ensures var l' := Apply(l, Dispatch(accept)); var f := l.flow[0]; var p := Path(l); var p' := Path(l');
            && l'.hold == [] && l'.source == l.source && (IsLead(f) || l'.drain == l.drain)
            && Near(l') == Near(l) == []
            && Carry(p) == Carried(f) + Carry(p') && LeadCount(p) == (if IsLead(f) then 1 else 0) + LeadCount(p')
            && (HasFin(p') ==> HasFin(p)) && FinLast(p')
            && (if IsLead(f) then LeadCount(p') == 0 else IsJunk(f) && LeadFirst(p'))
  {
    hide Carry, HasFin, FinLast, LeadCount, LeadFirst, EmptyLeads, BytesInv;
    var l' := Apply(l, Dispatch(accept));
    var p := l.flow + l.source.pend;
    assert l.drain.chan == [] && l.hold == [] && l'.drain.chan == [] && l'.hold == [];
    assert Path(l) == p && Path(l') == p[1..] && p[0] == l.flow[0];
    Uncons(p);
    UnconsLeadFirst(p);
  }

  /** A stream that is not open yet meets junk. */
  lemma NotOpen(l: Lane, accept: bool)
    requires l.dir.Down? && Good(l) && Enabled(l, Dispatch(accept)) && l.drain.entry.Waiting? && !IsLead(l.flow[0])
    ensures Good(Apply(l, Dispatch(accept)))
  {
    hide Carry, HasFin, FinLast, LeadCount, LeadFirst, EmptyLeads, Near, Path, Route;
    var l' := Apply(l, Dispatch(accept));
    Nil();
    WaitingView(l, accept);
    assert Whole(l') == Whole(l) && Sure(l') == Sure(l);
  }

  /** The Open frame arrives: the client starts a task that first writes the head. */
  lemma Accepted(l: Lane)
    requires l.dir.Down? && Good(l) && Enabled(l, Dispatch(true)) && l.drain.entry.Waiting? && IsLead(l.flow[0])
    ensures Good(Apply(l, Dispatch(true)))
  {
    hide Carry, HasFin, FinLast, LeadCount, LeadFirst, EmptyLeads, Near, Path, BytesInv;
    Nil();
    WaitingView(l, true);
    AcceptedBytes(l);
  }

  lemma AcceptedBytes(l: Lane)
    requires l.dir.Down? && Good(l) && Enabled(l, Dispatch(true)) && l.drain.entry.Waiting? && IsLead(l.flow[0])
    ensures BytesInv(Apply(l, Dispatch(true)))
  {
    hide Carry, HasFin, FinLast, LeadCount, LeadFirst, EmptyLeads, Near, Path, FinInv;
    Nil();
    var l' := Apply(l, Dispatch(true));
    WaitingView(l, true);
    assert l'.drain.cur == Carried(l.flow[0]) && l'.drain.out == [] == l.drain.out && l.drain.cur == [];
    assert Whole(l') == Whole(l);
    assert Sure(l') <= Whole(l') by {
      Split(l');
    }
  }

  /** The Open frame arrives and the client has nowhere to dial: the stream is never entered. */
  lemma Refused(l: Lane)
    requires l.dir.Down? && Good(l) && Enabled(l, Dispatch(false)) && l.drain.entry.Waiting? && IsLead(l.flow[0])
    ensures Good(Apply(l, Dispatch(false)))
  {
    hide Carry, HasFin, FinLast, LeadCount, LeadFirst, EmptyLeads, Near, Path;
    Nil();
    var l' := Apply(l, Dispatch(false));
    WaitingView(l, false);
    assert !Feeding(l') && !Finished(l');
  }

  lemma KeepDispatchUp(l: Lane, accept: bool)
    requires l.dir.Up? && Good(l) && Enabled(l, Dispatch(accept))
    ensures Good(Apply(l, Dispatch(accept)))
  {
    var l' := Apply(l, Dispatch(accept));
    if l.drain.entry.Live? && l.drain.rx {
      Arrive(l, l');
    } else {
      Discard(l, l');
    }
  }

  lemma KeepTake(l: Lane)
    requires Good(l) && Enabled(l, Take)
    ensures Good(Apply(l, Take))
  {
    TakeBytes(l);
    TakeEnds(l);
    TakeLeads(l);
  }

  /** The first frame leaves the channel, and with it the path. */
  lemma TakeView(l: Lane, l': Lane)
    requires Good(l) && l.drain.chan != []
    requires l'.drain.chan == l.drain.chan[1..] && l'.hold == l.hold && l'.flow == l.flow && l'.source.pend == l.source.pend
    ensures var f := l.drain.chan[0];
            && Carry(Near(l)) == Carried(f) + Carry(Near(l')) && Carry(Path(l)) == Carried(f) + Carry(Path(l'))
            && LeadCount(Near(l)) == (if IsLead(f) then 1 else 0) + LeadCount(Near(l'))
            && LeadCount(Path(l)) == (if IsLead(f) then 1 else 0) + LeadCount(Path(l'))
            && (HasFin(Near(l)) <==> IsFin(f) || HasFin(Near(l'))) && (HasFin(Path(l)) <==> IsFin(f) || HasFin(Path(l')))
            && FinLast(Path(l')) && (IsFin(f) ==> Carry(Path(l')) == [] && Carry(Near(l')) == [])
            && (EmptyLeads(Path(l)) ==> EmptyLeads(Path(l')) && (IsLead(f) ==> Carried(f) == []))
  {
    hide Carry, HasFin, FinLast, LeadCount, LeadFirst, EmptyLeads;
    assert Near(l)[0] == l.drain.chan[0] == Path(l)[0] && Near(l') == Near(l)[1..] && Path(l') == Path(l)[1..];
    Uncons(Near(l));
    Uncons(Path(l));
    Split(l');
  }

  lemma TakeBytes(l: Lane)
    requires Good(l) && Enabled(l, Take)
    ensures TaskInv(Apply(l, Take)) && BytesInv(Apply(l, Take))
  {
    hide Carry, HasFin, FinLast, LeadCount, LeadFirst, EmptyLeads, Near, Path, FinInv;
    var l' := Apply(l, Take);
    TakeView(l, l');
    assert Sure(l) == l.drain.out + Carried(l.drain.chan[0]) + Carry(Near(l'));
    assert Whole(l) == l.drain.out + Carried(l.drain.chan[0]) + Carry(Path(l')) + l.source.uncut;
  }

  lemma TakeEnds(l: Lane)
    requires Good(l) && Enabled(l, Take)
    ensures FinInv(Apply(l, Take))
  {
    hide Carry, HasFin, FinLast, LeadCount, LeadFirst, EmptyLeads, Near, Path;
    var l' := Apply(l, Take);
    TakeView(l, l');
    assert Sure(l) == l.drain.out + Carried(l.drain.chan[0]) + Carry(Near(l'));
  }

  lemma TakeLeads(l: Lane)
    requires Good(l) && Enabled(l, Take)
    ensures LeadInv(Apply(l, Take))
  {
    hide Carry, HasFin, FinLast, LeadCount, LeadFirst, EmptyLeads, Near, Path;
    TakeView(l, Apply(l, Take));
  }

  lemma KeepWrite(l: Lane, n: nat)
    requires Good(l) && Enabled(l, Write(n))
    ensures Good(Apply(l, Write(n)))
  {
    hide Carry, HasFin, FinLast, LeadCount, LeadFirst, EmptyLeads;
    var l' := Apply(l, Write(n));
    assert l'.drain.out + l'.drain.cur == l.drain.out + l.drain.cur;
  }

  /** The frame a loop was holding is given up. */
  lemma KeepUnhold(l: Lane, op: Op)
    requires Good(l) && Enabled(l, op) && (op.DeliverClosed? || op.Stall?)
    ensures Good(Apply(l, op))
  {
    hide Carry, HasFin, FinLast, LeadCount, LeadFirst, EmptyLeads;
    var l' := Apply(l, op);
    assert l.drain.chan + [] == l.drain.chan;
    assert Path(l) == l.drain.chan + l.hold + (l.flow + l.source.pend) && Path(l') == l.drain.chan + (l.flow + l.source.pend);
    Remove(l.drain.chan, l.hold, l.flow + l.source.pend);
    Concat(l.drain.chan, l.hold);
    if Feeding(l) {
      assert Sure(l) == Sure(l') + Carry(l.hold);
      assert HasFin(l.drain.chan) ==> Carry(l.hold) == [] by {
        Concat(l.drain.chan + l.hold, l.flow + l.source.pend);
      }
    }
  }

  lemma KeepStop(l: Lane, op: Op)
    requires Good(l) && Enabled(l, op)
    requires op.WriteFail? || op.Stop? || op.CloseRx? || op.Clear?
    ensures Good(Apply(l, op))
  {
    hide Carry, HasFin, FinLast, LeadCount, LeadFirst, EmptyLeads;
    var l' := Apply(l, op);
    assert Near(l') == Near(l) && Path(l') == Path(l);
  }

  /** No operation breaks the invariant. */
  lemma Keep(l: Lane, op: Op)
    requires Inv(l) && Enabled(l, op)
    ensures Inv(Apply(l, op))
  {
    match op
    case Read(data, items) =>
      if items == [] && MayBuffer(l) {
        KeepBuffer(l, data);
      } else {
        KeepRead(l, data, items);
      }
    case Finish(items) => KeepFinish(l, items);
    case Abort => KeepAbort(l);
    case Push => KeepPush(l);
    case Inject(f) => KeepInject(l, f);
    case Dispatch(accept) =>
      if l.dir.Down? {
        KeepDispatchDown(l, accept);
      } else {
        KeepDispatchUp(l, accept);
      }
    case Deliver => KeepDeliver(l);
    case DeliverClosed => KeepUnhold(l, op);
    case Stall => KeepUnhold(l, op);
    case Take => KeepTake(l);
    case Write(n) => KeepWrite(l, n);
    case _ => KeepStop(l, op);
  }

  // ---- what an operation leaves alone ----

  predicate IsLocal(op: Op) {
    op.Read? || op.Finish? || op.Abort? || op.Take? || op.Write? || op.WriteFail? || op.Stop? ||
    op.CloseRx? || op.Clear?
  }

  lemma LocalFrame(l: Lane, op: Op)
    requires Enabled(l, op) && IsLocal(op)
    ensures var l' := Apply(l, op);
            && l'.flow == l.flow && l'.hold == l.hold && l'.dir == l.dir && l'.kind == l.kind && l'.created
            && l'.source.pend == (if op.Read? || op.Finish? then op.items else if op.Abort? then [] else l.source.pend)
  {
  }

  // ---- the histories only grow, by what is read and what is written ----

  function Reads(op: Op): seq<byte> {
    if op.Read? then op.data else []
  }

  function Writes(l: Lane, op: Op): seq<byte> {
    if op.Write? && op.n <= |l.drain.cur| then l.drain.cur[..op.n] else []
  }

  lemma Histories(l: Lane, op: Op)
    requires Good(l) && Enabled(l, op)
    ensures Apply(l, op).source.read == l.source.read + Reads(op)
    ensures Apply(l, op).drain.out == l.drain.out + Writes(l, op)
  {
    hide Carry, HasFin, FinLast, LeadCount, LeadFirst, EmptyLeads, Near, Path, FinInv, BytesInv;
    if op.Dispatch? && l.dir.Down? && !l.drain.entry.Waiting? {
      NotLead(l);
    }
  }

  // ---- every byte is accounted for ----

  /** Nothing has been thrown away on either side, and what is written is still welcome. */
  predicate Intact(l: Lane) {
    l.created && Feeding(l) && !l.source.lost && !l.drain.entry.Gone?
  }

  // ---- what a receiving loop does with a frame ----

  /**
   * The broker: a frame for a stream that is listed and still has its receiver is never thrown away. It goes to the end
   * of what the stream already has, into the channel at once while fewer than eight frames are queued there.
   */
  lemma ListedKeepsFrame(l: Lane, accept: bool)
    requires Good(l) && l.dir.Up? && Enabled(l, Dispatch(accept)) && l.drain.entry.Live? && l.drain.rx
    ensures var l' := Apply(l, Dispatch(accept));
            && l'.drain.entry.Live? && l'.drain.rx && Near(l') == Near(l) + [l.flow[0]] && l'.flow == l.flow[1..]
            && (l'.hold == [] <==> |l.drain.chan| < 8)
            && l'.source == l.source && l'.drain == l.drain.(chan := l'.drain.chan)
  {
    assert l.hold == [] && l.drain.chan + [] == l.drain.chan;
  }

  /** With the receiver gone the stream is taken off the list; a frame for a stream not listed changes nothing. */
  lemma UnlistedDropsFrame(l: Lane, accept: bool)
    requires l.dir.Up? && Enabled(l, Dispatch(accept)) && !(l.drain.entry.Live? && l.drain.rx)
    ensures var l' := Apply(l, Dispatch(accept));
            && l'.hold == [] && l'.flow == l.flow[1..] && l'.source == l.source && !l'.drain.entry.Live?
            && l'.drain == l.drain.(entry := l'.drain.entry) && (l.drain.entry.Live? ==> l'.drain.entry.Gone?)
  {
  }

  /** The client: Data and Close go to the task, a Close takes the stream off the table, anything else is ignored. */
  lemma ClientHandsOver(l: Lane, accept: bool)
    requires Good(l) && l.dir.Down? && Enabled(l, Dispatch(accept)) && l.drain.entry.Live?
    ensures var l' := Apply(l, Dispatch(accept)); var f := l.flow[0];
            && l'.flow == l.flow[1..] && l'.source == l.source && l'.drain == l.drain.(entry := l'.drain.entry)
            && (f.Chunk? || f.End? ==> Near(l') == Near(l) + [f])
            && (!f.Chunk? && !f.End? ==> Near(l') == Near(l))
            && (l'.drain.entry.Live? <==> !f.End?) && !l'.drain.entry.Waiting?
  {
    assert l.hold == [] && l.drain.chan + [] == l.drain.chan;
  }

  /** A stream the client does not know is opened by its Open frame, with the head to write first, and by nothing else. */
  lemma ClientOpens(l: Lane, accept: bool)
    requires Good(l) && l.dir.Down? && Enabled(l, Dispatch(accept)) && !l.drain.entry.Live?
    ensures var l' := Apply(l, Dispatch(accept)); var f := l.flow[0];
            && l'.flow == l.flow[1..] && l'.hold == [] && l'.source == l.source
            && (l'.drain.entry.Live? <==> f.Lead? && accept)
            && (f.Lead? && accept ==> l'.drain.cur == f.head && l'.drain.chan == [] && l'.drain.rx && l'.drain.sink.Running?)
            && (!f.Lead? ==> l'.drain == l.drain)
  {
  }

  /** What a writing task does with a frame: write data, stop at a Close and remember its code, ignore the rest. */
  lemma TakenFrame(l: Lane)
    requires Good(l) && Enabled(l, Take) && l.drain.sink.Running?
    ensures var l' := Apply(l, Take); var f := l.drain.chan[0];
            && l'.drain.chan == l.drain.chan[1..] && l'.drain.out == l.drain.out && l'.drain.ok == l.drain.ok
            && (l'.drain.sink.Stopped? <==> f.End?) && l'.drain.cur == (if f.Chunk? && l.drain.ok then f.data else [])
            && l'.drain.fin == (if f.End? then Some(f.code) else l.drain.fin)
  {
  }

  /** A response must begin with an OpenAck; anything else ends it. */
  lemma TakenFirst(l: Lane)
    requires Enabled(l, Take) && l.drain.sink.AwaitLead?
    ensures var l' := Apply(l, Take); var f := l.drain.chan[0];
            && (l'.drain.sink.Running? <==> f.Lead?) && (l'.drain.sink.Stopped? <==> !f.Lead?)
            && (f.Lead? ==> l'.drain.cur == f.head && l'.drain.fin == l.drain.fin)
            && (f.End? ==> l'.drain.fin == Some(f.code)) && (!f.End? && !f.Lead? ==> l'.drain.fin.None?)
  {
  }

  /** All the ways in which a byte, or the promise that it arrives, can be lost. */
  predicate MayLose(l: Lane, op: Op)
    requires Enabled(l, op)
  {
    match op
    case Finish(_) => l.source.uncut != []
    case Abort => true
    case Stall => true
    case WriteFail(_) => true
    case Stop => true
    case CloseRx => true
    case Clear => true
    case Take => l.drain.chan[0].End? || (l.drain.sink.AwaitLead? && !l.drain.chan[0].Lead?)
    case Dispatch(accept) =>
      if l.dir.Up? then l.drain.entry.Live? && !l.drain.rx
      else if l.drain.entry.Live? then l.flow[0].End?
      else l.flow[0].Lead? && !accept
    case _ => false
  }

  /** Any other operation leaves a stream from which nothing has been lost so. */
  lemma NothingElseLoses(l: Lane, op: Op)
    requires Good(l) && Intact(l) && Enabled(l, op) && !MayLose(l, op)
    ensures Intact(Apply(l, op))
  {
    hide Carry, HasFin, FinLast, LeadCount, EmptyLeads, Near, Path, FinInv, BytesInv;
  }

  // ---- giving a stalled stream up ----

  /** The broker has given the stream up: `total` is all its visitor can still get. */
  predicate GivenUp(l: Lane, total: seq<byte>) {
    l.dir.Up? && l.drain.entry.Gone? && l.hold == [] && l.drain.out <= total && (Feeding(l) ==> Sure(l) == total)
  }

  lemma StallGivesUp(l: Lane)
    requires Good(l) && Enabled(l, Stall) && Feeding(l)
    ensures GivenUp(Apply(l, Stall), l.drain.out + l.drain.cur + Carry(l.drain.chan))
  {
    hide Carry, HasFin, FinLast, LeadCount, LeadFirst, EmptyLeads;
    assert l.drain.chan + [] == l.drain.chan;
  }

  lemma TakeGivenUp(l: Lane, total: seq<byte>)
    requires Good(l) && Enabled(l, Take) && GivenUp(l, total)
    ensures GivenUp(Apply(l, Take), total)
  {
    hide Carry, HasFin, FinLast, LeadCount, LeadFirst, EmptyLeads, Path, FinInv, BytesInv;
    var l' := Apply(l, Take);
    TakeView(l, l');
    assert Near(l) == l.drain.chan && Near(l') == l.drain.chan[1..];
    Uncons(l.drain.chan);
    Join(l.drain.out, Carried(l.drain.chan[0]), Carry(l.drain.chan[1..]));
  }

  /** Nothing is added and nothing in the middle is lost: the visitor gets what had been delivered, in order, or a part from the start. */
  lemma GivenUpStays(l: Lane, op: Op, total: seq<byte>)
    requires Good(l) && Enabled(l, op) && GivenUp(l, total)
    ensures GivenUp(Apply(l, op), total)
  {
    hide Carry, HasFin, FinLast, LeadCount, LeadFirst, EmptyLeads, Path, FinInv, BytesInv, LeadInv;
    var l' := Apply(l, op);
    match op
    case Take => TakeGivenUp(l, total);
    case Write(n) =>
      assert l.drain.out + l.drain.cur == l'.drain.out + l'.drain.cur;
    case _ =>
  }

  // ---- the codes an end can carry ----

  /** The two codes there is a sender for. */
  predicate UsualCode(f: Item) {
    f.End? ==> f.code == CLOSE_OK || f.code == CLOSE_APP_ERROR
  }

  predicate AllUsual(items: seq<Item>) {
    forall f :: f in items ==> UsualCode(f)
  }

  predicate UsualOp(op: Op) {
    (op.Finish? ==> AllUsual(op.items)) && (op.Inject? ==> UsualCode(op.item))
  }

  predicate UsualLane(l: Lane) {
    AllUsual(Path(l)) && (l.drain.fin.Some? ==> l.drain.fin.value == CLOSE_OK || l.drain.fin.value == CLOSE_APP_ERROR)
  }

  /** What an operation may add to the path. */
  function NewItems(op: Op): seq<Item> {
    if op.Finish? || op.Read? then op.items else if op.Inject? then [op.item] else []
  }

  lemma PathFrom(l: Lane, op: Op)
    requires Enabled(l, op) && !op.Dispatch?
    ensures forall f :: f in Path(Apply(l, op)) ==> f in Path(l) || f in NewItems(op)
  {
    hide Carry, HasFin, LeadCount, EmptyLeads, MayBuffer, Cuttable, Closing;
  }

  lemma PathRouted(l: Lane, accept: bool)
    requires Enabled(l, Dispatch(accept))
    ensures forall f :: f in Path(Apply(l, Dispatch(accept))) ==> f in Path(l)
  {
  }

  lemma FinFrom(l: Lane, op: Op)
    requires Enabled(l, op)
    ensures var fin := Apply(l, op).drain.fin;
            fin.Some? && fin != l.drain.fin ==> op.Take? && l.drain.chan[0] == End(fin.value) && l.drain.chan[0] in Path(l)
  {
    hide Carry, HasFin, LeadCount, EmptyLeads, MayBuffer, Cuttable, Closing;
    assert op.Take? ==> l.drain.chan[0] in Path(l);
  }

  /** What ends a stream was put on its way by one of its tasks. */
  lemma KeepUsual(l: Lane, op: Op)
    requires UsualLane(l) && Enabled(l, op) && UsualOp(op)
    ensures UsualLane(Apply(l, op))
  {
    hide Carry, HasFin, LeadCount, EmptyLeads, MayBuffer, Apply, Path;
    FinFrom(l, op);
    if op.Dispatch? {
      PathRouted(l, op.accept);
    } else {
      PathFrom(l, op);
    }
    forall f | f in Path(Apply(l, op))
      ensures UsualCode(f)
    {
      assert op.Read? && f in op.items ==> !f.End?;
    }
  }
}
