/**
 * The two receiving loops in the form the program has them: a table of senders that is changed in place, one
 * message at a time. Each method is proved to do to the table what the step of `Links` does to the session.
 */
module MuxLoops {
  import opened Bytes
  import opened Items
  import opened Lanes
  import opened Links
  import Frames
  import OpenMetas
  import Tunnel

  /** What one received message changes: the state of its own stream, and what the loop holds. */
  lemma ReceiveEffect(k: Link, accept: bool)
    requires k.net != [] && k.held.None?
    ensures var h := Decode(k.dir, k.net[0]); var k' := StepApply(k, Receive(accept));
            && k'.dir == k.dir
            && (h.None? || h.value.id !in k.lanes ==> k'.lanes == k.lanes && k'.held == None)
            && (h.Some? && h.value.id in k.lanes ==>
                  var r := Route(k.dir, k.lanes[h.value.id].drain, h.value.item, accept);
                  && k'.lanes.Keys == k.lanes.Keys && k'.lanes[h.value.id].drain == r.drain
                  && (forall t :: t in k.lanes && t != h.value.id ==> k'.lanes[t] == k.lanes[t])
                  && k'.held == (if r.hold == [] then None else Some(Held(h.value.id, r.hold[0]))))
  {
    hide Decode, Route;
  }

  /** Whose Open frame, if any, the session rejects. */
  lemma RejectedIff(k: Link, accept: bool)
    requires k.net != [] && AddressedOne(k, k.net[0])
    ensures var h := Decode(k.dir, k.net[0]);
            if h.None? || !h.value.item.Lead? || accept then Tunnel.Rejected(k, accept) == None
            else
              && h.value.id in k.lanes
              && Tunnel.Rejected(k, accept) == if k.lanes[h.value.id].drain.entry.Live? then None else Some(h.value.id)
  {
    hide Decode;
  }

  /** A bounded channel: what is queued, and whether its receiver still exists. */
  datatype Channel = Channel(queue: seq<Item>, rx: bool)

  /** The stream table of one side, the channels behind it, and what its loop is waiting to hand over. */
  class Table {
    const dir: Dir
    var streams: set<u32>
    var channels: map<u32, Channel>
    var held: Option<Held>
    var rejecting: Option<u32>

    constructor (dir: Dir)
      ensures this.dir == dir && streams == {} && channels == map[] && held == None && rejecting == None
    {
      this.dir := dir;
      streams := {};
      channels := map[];
      held := None;
      rejecting := None;
    }

    ghost predicate MirrorsOne(k: Link, id: u32)
      requires id in k.lanes
      reads this
    {
      var d := k.lanes[id].drain;
      && (id in streams <==> d.entry.Live?)
      && (id in streams || HeldBy(k, id) != [] ==> id in channels && channels[id] == Channel(d.chan, d.rx))
    }

    /** The table is the session's receiving end. */
    ghost predicate Mirrors(k: Link)
      reads this
    {
      k.dir == dir && held == k.held && (dir.Down? ==> streams <= k.lanes.Keys) && forall id :: id in k.lanes ==> MirrorsOne(k, id)
    }

    /** The loop is free for the next message. */
    ghost predicate Free(k: Link) {
      k.net != [] && k.held.None?
    }

    /** `route_frame` on the broker, up to the point where it may have to wait. */
    method RouteFrame(m: Message, ghost k: Link)
      requires dir.Up? && Mirrors(k) && Free(k) && k.net[0] == m
      requires var h := Decode(Up, m); h.Some? && h.value.id in streams ==> h.value.id in k.lanes
      modifies this
      ensures Mirrors(StepApply(k, Receive(true))) && rejecting == old(rejecting)
      ensures var h := Decode(Up, m);
              if h.None? || h.value.id !in old(streams) then
                streams == old(streams) && channels == old(channels) && held == old(held)
              else
                && old(h.value.id in channels)
                && var q := old(channels[h.value.id]);
                   if !q.rx then
                     streams == old(streams) - {h.value.id} && channels == old(channels) && held == old(held)
                   else
                     && streams == old(streams)
                     && (|q.queue| < 8 ==>
                           channels == old(channels)[h.value.id := q.(queue := q.queue + [h.value.item])] && held == old(held))
                     && (|q.queue| >= 8 ==> channels == old(channels) && held == h)
    {
      hide StepApply, StepEnabled, Frames.Decode, OpenMetas.Decode;
      ReceiveEffect(k, true);
      if m.Text? {
        return;
      }
      var r := Frames.Decode(m.bytes);
      if r.Err? {
        return;
      }
      var id := r.frame.streamId;
      var item := ItemOf(dir, r.frame);
      if item.None? || id !in streams {
        return;
      }
      var tx := channels[id];
      if !tx.rx {
        streams := streams - {id};
      } else if |tx.queue| < STREAM_QUEUE_CAP {
        channels := channels[id := tx.(queue := tx.queue + [item.value])];
      } else {
        held := Some(Held(id, item.value));
      }
    }

    /** The client's loop: a frame opens a stream, is handed to its task, or takes it off the table. */
    method OnBinary(m: Message, hasTarget: bool, ghost k: Link)
      requires dir.Down? && Mirrors(k) && Free(k) && k.net[0] == m && rejecting == None && AddressedOne(k, m)
      modifies this
      ensures Mirrors(StepApply(k, Receive(hasTarget)))
      ensures rejecting == Tunnel.Rejected(k, hasTarget)
      ensures var h := Decode(Down, m);
              if h.None? then streams == old(streams) && channels == old(channels) && held == old(held)
              else
                && streams == (if h.value.item.Lead? && hasTarget then old(streams) + {h.value.id}
                               else if h.value.item.End? then old(streams) - {h.value.id} else old(streams))
                && channels == (if h.value.item.Lead? && hasTarget && h.value.id !in old(streams)
                                then old(channels)[h.value.id := Channel([], true)] else old(channels))
                && held == (if (h.value.item.Chunk? || h.value.item.End?) && h.value.id in old(streams) then h else old(held))
    {
      hide StepApply, StepEnabled, Frames.Decode, OpenMetas.Decode, Tunnel.Rejected;
      ReceiveEffect(k, hasTarget);
      RejectedIff(k, hasTarget);
      if m.Text? {
        return;
      }
      var r := Frames.Decode(m.bytes);
      if r.Err? {
        return;
      }
      var id := r.frame.streamId;
      match r.frame.opcode
      case Open =>
        if id in streams {
          return;
        }
        var meta := OpenMetas.Decode(r.frame.payload);
        if meta.Err? {
          return;
        }
        if !hasTarget {
          rejecting := Some(id);
          return;
        }
        streams := streams + {id};
        channels := channels[id := Channel([], true)];
      case Data =>
        if id in streams {
          held := Some(Held(id, Chunk(r.frame.payload)));
        }
      case Close =>
        var code := if r.frame.payload == [] then CLOSE_OK else r.frame.payload[0];
        if id in streams {
          streams := streams - {id};
          held := Some(Held(id, End(code)));
        }
      case _ =>
    }

    /** The wait ends with room in the channel. */
    method HandOver(ghost k: Link)
      requires Mirrors(k) && StepEnabled(k, DeliverHeld) && Wf(k)
      modifies this
      ensures Mirrors(StepApply(k, DeliverHeld)) && held == None && streams == old(streams)
      ensures var h := old(held).value;
              && h.id in old(channels)
              && channels == old(channels)[h.id := old(channels)[h.id].(queue := old(channels)[h.id].queue + [h.item])]
    {
      var h := held.value;
      var tx := channels[h.id];
      channels := channels[h.id := tx.(queue := tx.queue + [h.item])];
      held := None;
    }

    /** The wait ends with STREAM_SEND_TIMEOUT: the stream alone is taken off the table. */
    method GiveUp(ghost k: Link)
      requires Mirrors(k) && StepEnabled(k, StallHeld) && Wf(k)
      modifies this
      ensures Mirrors(StepApply(k, StallHeld))
      ensures streams == old(streams) - {old(held).value.id} && channels == old(channels) && held == None
    {
      streams := streams - {held.value.id};
      held := None;
    }
  }
}
