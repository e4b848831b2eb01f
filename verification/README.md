# A model of the tunnel broker and its client

The program lets a visitor reach a service on somebody's own machine: the client keeps one WebSocket session to
a public broker, and the broker carries every visitor's connection over it. This project models the parts of
that program where steps interleave or arithmetic is delicate, and proves what they promise.

| file | modules | about |
|---|---|---|
| `Bytes.dfy` | `Bytes` | machine integers, big-endian bytes |
| `Wire.dfy` | `Frames`, `OpenMetas`, `P2pFrames` | the frame, open-metadata and peer-to-peer codecs |
| `Lane.dfy` | `Items`, `Lanes` | one direction of one stream as a step machine, and its invariant |
| `Link.dfy` | `Links` | any number of lanes over one shared ordered queue; a simulation onto each lane |
| `HttpHead.dfy` | `HttpHead` | cutting bytes into frames, and splitting a response at the end of its head |
| `Tunnel.dfy` | `Tunnel` | a whole session: both directions, all tasks, both loops |
| `Transparency.dfy` | `Transparency` | what a session promises its endpoints in every run |
| `Losses.dfy` | `Losses` | which labels can take a stream off the broker's table or lose a byte of it |
| `Notices.dfy` | `Notices` | the frames that each turn of a stream puts on its way |
| `Deliveries.dfy` | `Deliveries` | sessions that exist: everything delivered, overtaken by an early Close, or refused |
| `Bursts.dfy` | `Bursts` | sessions with more frames on their way than a channel holds: all arrive, or the visitor stalls |
| `Occurrences.dfy` | `Occurrences` | every label of the session machine is possible at the end of some session |
| `Handshakes.dfy` | `Handshakes` | the HTTP handshake of a stream task over a whole session |
| `MuxLoops.dfy` | `MuxLoops` | the two receiving loops as methods over a table changed in place |
| `Session.dfy` | `Admission`, `Metering`, `Session` | lock-free stream slots, usage watermarks, and the session object |
| `Slots.dfy` | `Slots` | which connections give their slot back |
| `TokenBucket.dfy` | `TokenBucket` | the per-address and the per-session token bucket |
| `Calendar.dfy`, `Stamps.dfy` | `Calendar`, `Stamps` | civil dates and the two time stamps made of them |
| `MinuteWindow.dfy` | `MinuteWindow` | the fixed-minute limiter over an expiring key store |
| `Base32.dfy`, `Totp.dfy` | `Base32`, `Totp` | base32 through a 32-bit buffer, and one-time passwords |
| `TokenStore.dfy` | `TokenStore` | tokens, their cache and the digest index |
| `Registry.dfy` | `RegistryRace`, `Registry` | slug allocation, concurrently with counts that are not atomic, and one call at a time |
| `TunnelTable.dfy` | `TunnelTable` | the table of tunnel profiles |
| `Acme.dfy`, `Renewal.dfy` | `Challenges`, `Renewal` | TXT records of an order, and the renewal loop |

## How the multiplexer is modelled

A `Lane` is one direction of one stream: a reading task that cuts bytes into items, the items on their way,
the receiving side's table entry, its bounded channel, and a writing task. A `Link` puts the lanes of all
streams behind one bounded queue of encoded messages; `Links.Simulates` shows that a step of the link is, for
each stream, one operation of that stream's own lane or nothing at all, so the lane invariant carries over to
any interleaving. A `Tunnel` is two links and the coupling between them: a `Label` is what one task does between
two suspension points, with the program's own guards, and a label's effect on each direction is a short list of
link steps (`Tunnel.Ready`: none of them is ever skipped). Endpoints are tied to the labels of the run alone
(`Transparency.Seen`): what was read from and written to the two sockets of a stream.

The machine allows more than the program does wherever that costs nothing, which only makes its safety theorems
stronger: a task may be aborted at any await, together with what it has spawned or without (`Detach`: the body pump of
a request or the reader of a TCP stream goes on), a table entry may be removed early (`Conn.Clear`, `Task.Drop`), a
target may be configured for one Open and not for the next, timeouts may strike at any time, and after the head
of a response was queued a timed-out handshake may still send an OpenReject behind it, as the program can.

## Where the program differs from what it says

* A Close ends a stream "once everything is sent" only when its code is 0. Streams end with code 0 or 1 and no other
  (`Deliveries.CodesInUse`), and code 1 can overtake bytes that were read and not yet queued, in either direction:
  `Deliveries.BodyOvertaken`, `Deliveries.AnswerOvertaken`; `Deliveries.CompleteIffRegular` is the exact rule.
* `http_tunnel.rs` says that every error path frees the stream slot. Three ways out do not: an HTTP request whose head
  is too long, an HTTP handler that is dropped before it answers, and a UDP flow that is swept. `Slots.CounterAtRest`
  says what the counter is when everybody has left, `Slots.SlotsLost` that any mixture of the three does happen,
  `Slots.ForgottenBlock` and `Slots.NobodyGetsIn` what follows once the lost slots reach the limit.
* `rate_limit.rs` prunes idle buckets "to keep the map bounded". A bucket is never full right after a request
  unless the capacity is zero, so nothing is ever pruned: `TokenBucket.PruneKeepsIff`.
* `base32_decode` promises to reject every character outside the alphabet. It narrows characters to a byte first:
  `Base32.WideCharactersAccepted`; `Base32.RejectedIff` is the exact rule, and the promise holds for ASCII.
* `take_usage_delta` says concurrent callers split the delta. Modulo 2^64 they do, but one delta can wrap around:
  `Metering.StaleLoadWraps`. `Metering.DeltaHonestIff` is the condition for one call, `Metering.SplitIff` for all calls
  of a run; a call that no other swap falls into is always right (`Metering.UndisturbedIsHonest`).
* The caps of the registry, the server's and a token's, are exceeded by up to one less than the number of calls under
  way: `RegistryRace.OvershootBounded`. For any settings and any number of calls a run does it:
  `RegistryRace.OvershootReached`; the smaller of the caps that are on decides.
* A release build encodes ill-formed open metadata that does not decode back: `OpenMetas.RoundTripIffWellFormed`.
  The peer-to-peer encoder has no size check: `P2pFrames.RoundTripIffWithinCap`.
* A response whose head ends between 65536 less one read and 65536 bytes, and which has more than 65536 bytes in all,
  is accepted or refused depending on how it is cut into reads; no other response is: `HttpHead.CutsMatterIff`.
* `toggle` switches a tunnel on without asking for the cap: `TunnelTable.ToggleKeepsCapIff`.
* Four of a token's eight limits are not stored: `TokenStore.LimitsSurviveIff`.
* In the last time step of 64-bit time the product of step and 30 wraps: `Totp.LastStepWraps`.
* A tunnel named `ip:` and an address shares that address's counter: `MinuteWindow.KeysDistinct` says exactly when.

## Assumptions

SHA-256 has no collisions and an argon2 hash verifies for its own secret only (`TokenStore.Ideal`); HMAC-SHA1 is any
function with 20-byte results; bucket arithmetic is over the reals; a TXT create that fails leaves no record; an
increment reaches the key store within a minute of the clock reading its key was made from, and the store's clock
is that clock; nothing but the limiter increments keys there; the HTTP server may drop a handler at any await. Random
choices, clocks, the network and the outcome of every outside call are parameters.

## Model

| member | source | states |
|---|---|---|
| Frames.CodecBijection | crates/ddns-proto/src/frame.rs:78-115 | a buffer is accepted as frame f exactly when f has at most 1 MiB and the buffer is f's encoding |
| Frames.Layout | crates/ddns-proto/src/frame.rs:39-90 | the encoding byte by byte: opcodes 1 to 9 in the protocol's order, stream id and length in network order, payload |
| Frames.Refusals | crates/ddns-proto/src/frame.rs:92-115 | which buffers are refused, with which error, in which order the reasons are looked for |
| Frames.Encode | crates/ddns-proto/src/frame.rs:78-90 | appends bytes that decode to the frame, or refuses an oversized one and writes nothing |
| OpenMetas.RoundTripIffWellFormed | crates/ddns-proto/src/open.rs:40-86 | metadata decodes back exactly when it has a head if and only if it is HTTP |
| OpenMetas.Layout | crates/ddns-proto/src/open.rs:40-58 | the encoding byte by byte: 0, 1 or 2 for the kind, port and head length in network order, head |
| OpenMetas.Refusals | crates/ddns-proto/src/open.rs:61-86 | which buffers are refused and why, and what the others mean |
| OpenMetas.DecodedIsPrefix | crates/ddns-proto/src/open.rs:61-86 | an accepted buffer is well-formed metadata followed by bytes that are ignored |
| OpenMetas.EncodedMetaFitsOpenFrame | crates/ddns-proto/src/open.rs:40-58 | metadata the encoder accepts always fits the Open frame that carries it |
| OpenMetas.Encode | crates/ddns-proto/src/open.rs:40-59 | appends the encoding, or refuses a head over the limit with kind and port already written |
| P2pFrames.Layout | crates/ddns-client/src/p2p.rs:78-86 | the encoding byte by byte, the length cut to its low 32 bits |
| P2pFrames.RoundTripIffWithinCap | crates/ddns-client/src/p2p.rs:78-106 | a peer-to-peer frame decodes back exactly when its payload is at most 1 MiB |
| P2pFrames.Refusals | crates/ddns-client/src/p2p.rs:88-106 | a buffer is refused exactly for a short header, a length over 1 MiB, or too few bytes |
| P2pFrames.DecodedIsPrefix | crates/ddns-client/src/p2p.rs:88-106 | an accepted buffer starts with the encoding of its frame |
| Lanes.Keep | crates/ddns-client/src/mux.rs:482-779 | every operation of either end of a stream, of the loops and of teardown keeps: written bytes are a prefix of read bytes, nothing follows a regular end, at most one lead frame |
| Lanes.Histories | crates/ddns-server/src/tcp_bridge.rs:77-117 | what a lane has read and written only grows, by exactly what the operation reads or writes |
| Lanes.ListedKeepsFrame | crates/ddns-server/src/mux.rs:496-521 | a frame for a listed stream with a receiver is never thrown away: it goes to the end of what the stream has, into the channel at once while fewer than eight are queued |
| Lanes.UnlistedDropsFrame | crates/ddns-server/src/mux.rs:505-518 | a frame for a stream not listed changes nothing; one whose receiver is gone takes the stream off |
| Lanes.ClientHandsOver | crates/ddns-client/src/mux.rs:298-320 | on the client Data and Close go to the stream's task in order, a Close takes the stream off the table, anything else is ignored |
| Lanes.ClientOpens | crates/ddns-client/src/mux.rs:255-299 | an unknown stream is opened by its Open frame with the head to write first, if there is a target, and by nothing else |
| Lanes.TakenFrame | crates/ddns-server/src/tcp_bridge.rs:105-117 | a writer writes Data, stops at a Close and remembers its code, ignores the rest |
| Lanes.TakenFirst | crates/ddns-server/src/http_tunnel.rs:254-296 | a response begins with an OpenAck, and anything else ends it |
| Lanes.NothingElseLoses | crates/ddns-server/src/mux.rs:505-542 | apart from the listed ways, of which a full channel is none, no operation loses a byte of a stream |
| Lanes.StallGivesUp | crates/ddns-server/src/mux.rs:520-541 | giving a stalled stream up keeps everything delivered to it so far |
| Lanes.GivenUpStays | crates/ddns-server/src/mux.rs:505-542 | a stream that was given up never gets another byte and loses none from the middle |
| Links.DecodeEncode | crates/ddns-proto/src/frame.rs:78-115 | the loop reads from a queued message the item and the stream it was made of |
| Links.Meaning | crates/ddns-client/src/mux.rs:250-340 | what a received message is to a loop, byte by byte; a Close without a payload is regular |
| Links.OpenSays | crates/ddns-server/src/http_tunnel.rs:196-212 | an Open frame names the kind of its stream, no port, and carries the head of an HTTP request |
| Links.Simulates | crates/ddns-client/src/mux.rs:255-320 | a step of the shared queue or a loop is one operation of one stream's lane, and nothing to all others |
| Links.KeepLink | crates/ddns-server/src/session.rs:316-326 | every step of the shared machine keeps every stream's invariant |
| Links.Isolated | crates/ddns-server/src/mux.rs:505-542 | a step that is not a stream's own leaves its whole view unchanged |
| Links.KeepBounded | crates/ddns-server/src/session.rs:24-26 | no step overfills the shared queue or a stream's channel |
| Links.Capacities | crates/ddns-server/src/session.rs:20-32 | there is room exactly below 16 and 64 messages in the shared queues, 64 and 8 frames in a stream's channel |
| Links.KeepAddressed | crates/ddns-client/src/mux.rs:254-320 | no step sends a frame for an id that was never drawn, and none but an Open for a TCP or HTTP stream opens one |
| MuxLoops.ReceiveEffect | crates/ddns-server/src/mux.rs:505-515 | a received message changes the state of its own stream and what the loop holds, nothing else |
| MuxLoops.Table.RouteFrame | crates/ddns-server/src/mux.rs:505-520 | performs the session's receive step; table, channels and held frame afterwards, case by case: unknown, receiver gone, room for fewer than eight, full |
| MuxLoops.Table.OnBinary | crates/ddns-client/src/mux.rs:254-320 | does to the table what the session's receive step does: open, hand over, take off; and owes an OpenReject exactly for the stream that the session's rule rejects |
| MuxLoops.Table.HandOver | crates/ddns-client/src/mux.rs:305-306 | the frame the loop waited with goes to the end of its stream's channel |
| MuxLoops.Table.GiveUp | crates/ddns-server/src/mux.rs:521-525 | after the timeout the one stream is taken off the table and no channel changes |
| HttpHead.CutChunks | crates/ddns-server/src/http_tunnel.rs:241-250 | the pump's loop queues one frame a piece, and the frames together carry exactly the bytes read |
| HttpHead.ChunksAreFull | crates/ddns-server/src/http_tunnel.rs:241-250 | every piece but the last is full |
| HttpHead.FirstBlankLine | crates/ddns-client/src/p2p.rs:660-662 | the head ends with the first CR LF CR LF |
| HttpHead.FindHeadEnd | crates/ddns-client/src/p2p.rs:660-662 | finds the end of the first blank line |
| HttpHead.HeadEndStable | crates/ddns-client/src/mux.rs:539-550 | bytes that arrive later cannot move the end of the head |
| HttpHead.Handshake | crates/ddns-client/src/mux.rs:520-616 | the loop computes the split of the whole response |
| HttpHead.SplitExact | crates/ddns-client/src/mux.rs:520-616 | a response is accepted exactly when it has a head that looks right and the reads that complete it stay within the limit; it is cut at the first blank line, wherever the reads were cut |
| HttpHead.AcceptedHeads | crates/ddns-client/src/mux.rs:527-546 | a head at most 65536 less one read plus a byte is always accepted, one over 65536 never |
| HttpHead.HeadsAtBothPlaces | crates/ddns-client/src/mux.rs:527-546 | in numbers: with reads of at most 1024 bytes a head of at most 64513 is accepted exactly if the response begins with the bytes 72 84 84 80 47; with reads of at most 4096 one of at most 61441 whatever it begins with; one over 65536 never |
| HttpHead.CutsMatterIff | crates/ddns-client/src/mux.rs:527-538 | for all bytes there are two cuttings with opposite answers exactly when the head looks right and ends less than one read below the limit, and there are more bytes than the limit in all |
| HttpHead.CutsMatterInTheBand | crates/ddns-client/src/mux.rs:527-538 | with such a head some cutting is accepted, and some cutting is refused exactly if there are more than 65536 bytes in all |
| HttpHead.NothingLost | crates/ddns-client/src/mux.rs:550-578 | OpenAck and Data payloads together are the bytes read, cut at the end of the head |
| Tunnel.Ready | crates/ddns-client/src/mux.rs:482-779 | whatever a guard lets happen, all of its steps are possible: frames fit, ids are free |
| Tunnel.KeepTunnel | crates/ddns-server/src/session.rs:262-264 | every label keeps the session's invariant while at most 2^32 ids have been drawn |
| Notices.PushAdds | crates/ddns-server/src/session.rs:316-326 | the next frame a task has cut is queued behind all others, for its own stream |
| Notices.ReadCuts | crates/ddns-server/src/tcp_bridge.rs:77-92 | what is read from a visitor is cut into frames of at most 262144 bytes, all of it |
| Notices.EofTells | crates/ddns-server/src/tcp_bridge.rs:94-103 | the end of a visitor's TCP connection is a regular Close; a plain request just stops |
| Notices.UpgradeEndTells | crates/ddns-server/src/http_tunnel.rs:329-343 | after an upgrade it is a regular Close too |
| Notices.GivingUpTells | crates/ddns-server/src/http_tunnel.rs:255-280 | a request that is given up, and a stalled stream, are closed at the client with code 1 |
| Notices.RefusalTells | crates/ddns-client/src/mux.rs:276-287 | a stream without a target is answered with an OpenReject |
| Notices.ForeignQueues | crates/ddns-server/src/session.rs:316-326 | control messages and frames of other flows go behind everything in the shared queue, unchanged |
| Notices.TaskTells | crates/ddns-client/src/mux.rs:496-503 | so is one that cannot be dialled; TCP acknowledges with an empty OpenAck, and the end of the local service is passed on with code 0 or 1 |
| Notices.WriteFailureTells | crates/ddns-client/src/mux.rs:743-773 | a TCP stream whose local service takes no more is closed at the broker with code 1 and goes on draining |
| Notices.LeaveEnds | crates/ddns-server/src/tcp_bridge.rs:118-133 | a connection that leaves takes its stream off the table, closes its channel and stops reading its visitor |
| Notices.QuitEnds | crates/ddns-client/src/mux.rs:69-80 | a stream task that ends does the same on the client |
| Notices.DetachEnds | crates/ddns-client/src/mux.rs:690-696 | one that is aborted at teardown leaves the reader of its TCP stream as it was |
| Transparency.LabelHistory | crates/ddns-server/src/tcp_bridge.rs:77-117 | a label adds to a stream's histories exactly what it reads from or writes to that stream's sockets |
| Transparency.SeenIsHistory | crates/ddns-server/src/tcp_bridge.rs:77-117 | over a run the histories are what the two sockets of the stream saw |
| Transparency.VisitorToLocal | crates/ddns-client/src/mux.rs:742-776 | in every run the local socket gets a prefix of what its visitor sent, and all of it once a regular Close is consumed with no failed write |
| Transparency.LocalToVisitor | crates/ddns-server/src/tcp_bridge.rs:105-117 | in every run the visitor gets a prefix of what its local socket sent, and all of it once a regular Close is consumed with no failed write |
| Transparency.Isolation | crates/ddns-server/src/mux.rs:505-542 | whatever is done about one stream changes nothing of any other |
| Transparency.StallAbandons | crates/ddns-server/src/mux.rs:522-541 | a stalled stream is given up with what it was given, and a Close for it is due |
| Transparency.AbandonedForGood | crates/ddns-server/src/mux.rs:522-541 | for the rest of the run its visitor gets those bytes in order, or a part from the start |
| Transparency.QueuesBounded | crates/ddns-server/src/session.rs:20-32 | in every run 16 and 64 messages bound the shared queues, 64 and 8 a stream's |
| Transparency.TaskSplits | crates/ddns-client/src/mux.rs:527-577 | read by read a stream task splits the response as the whole response is split |
| Handshakes.HandshakeIsSplit | crates/ddns-client/src/mux.rs:527-577 | in every run an HTTP stream's task has accepted the response exactly when the splitter accepts its reads, an OpenAck on its way carries what the local service has sent up to its first blank line, and what the visitor's side was given starts with that |
| Transparency.IdsRepeat | crates/ddns-server/src/session.rs:262-264 | two draws give one id exactly when a multiple of 2^32 lies between them |
| Transparency.DistinctIff | crates/ddns-server/src/session.rs:262-264 | ids are all different exactly up to 2^32 draws |
| Transparency.Accounted | crates/ddns-server/src/http_tunnel.rs:224-250 | in every run, while nothing was thrown away, what one socket sent is what the other got and what is still in between; with nothing in between it is complete, Close or no Close |
| Losses.StaysListed | crates/ddns-server/src/mux.rs:496-521 | no label but the stream's own winding up or a stall takes a stream away from its receiver |
| Losses.LeavesTableOnly | crates/ddns-server/src/mux.rs:505-541 | a stream leaves the broker's table only by its own connection, a stall, or a frame that finds its receiver gone |
| Losses.NothingTruncated | crates/ddns-server/src/mux.rs:496-521 | over any run without those, every byte sent is written, being written or on its way, however many frames are queued |
| Transparency.UsualEnds | crates/ddns-proto/src/frame.rs:6-9 | in every run a stream ends with code 0 or 1, in either direction |
| Transparency.FramesAddressed | crates/ddns-client/src/mux.rs:254-320 | in every run a frame on its way is for a stream the session knows or a flow of another kind |
| Deliveries.Conversation | crates/ddns-server/src/tcp_bridge.rs:72-133 | whatever two TCP peers say, in any pieces a read can return, there is a session in which each hears all of it and both ends are regular |
| Deliveries.Exchange | crates/ddns-server/src/http_tunnel.rs:196-296 | for any request head, any response head that looks right and comes in one read, and any pieces of a body there is a session in which the local service gets the one, the visitor the others, and the response ends with code 0 |
| Deliveries.BodyOvertaken | crates/ddns-server/src/http_tunnel.rs:255-280 | for any head and any body there is a session in which the request ends with code 1, no write fails and none of the body arrives |
| Deliveries.AnswerOvertaken | crates/ddns-client/src/mux.rs:743-773 | for any piece of an answer there is a session in which the Close of a stalled local write overtakes it |
| Deliveries.DialRefused | crates/ddns-client/src/mux.rs:496-503 | a stream whose target cannot be dialled: nothing gets through in either direction and the broker is told |
| Deliveries.NoTarget | crates/ddns-client/src/mux.rs:276-287 | a stream without a target: never entered, and the broker is told |
| Bursts.BurstArrives | crates/ddns-server/src/mux.rs:496-521 | for any nine pieces or more there is a session in which all are on their way, eight in the channel and one in the loop's hand, before the visitor has read one, and all arrive |
| Bursts.StallCutsShort | crates/ddns-server/src/mux.rs:520-541 | and one in which the visitor stalls, gets the eight pieces and can never get another byte |
| Occurrences.EveryLabelHappens | crates/ddns-client/src/mux.rs:482-777 | every step of a visitor's connection, of a stream task and of the loops, with any data a read or write can carry, is possible at the end of some session |
| Deliveries.CodesInUse | crates/ddns-proto/src/frame.rs:6-9 | sessions whose stream ends with a code exist exactly for codes 0 and 1, in either direction |
| Deliveries.CompleteIffRegular | crates/ddns-client/src/mux.rs:311-320 | of these, 0 and only 0 promises over all sessions that everything has arrived, in either direction |
| Admission.Admits | crates/ddns-server/src/session.rs:269-289 | for any threads and interleaving: slots held never exceed the smaller limit, counter = held + about to undo, quiescent peak covers every past count and no more than the limit |
| Admission.Keep | crates/ddns-server/src/session.rs:269-289 | each atomic operation keeps the invariant behind it |
| Admission.TurnedAwayIff | crates/ddns-server/src/session.rs:270-278 | a call is refused exactly when held slots and undoing calls reach the limit; with none undoing, when it is full |
| Admission.OvershootHappens | crates/ddns-server/src/session.rs:270-278 | the counter can pass the limit with every slot free |
| Metering.DeltasSum | crates/ddns-server/src/session.rs:245-259 | for any interleaving the deltas add up, in 64 bits, to the watermark |
| Metering.LastCallCatchesUp | crates/ddns-server/src/session.rs:245-259 | one call with nothing in between brings the total to the live counter |
| Metering.DeltaHonestIff | crates/ddns-server/src/session.rs:242-252 | in every run whose counter has not wrapped a call reports exactly what it has loaded and nobody reported, if and only if the last swap between its load and its swap, if any, stored no more than was counted at its load |
| Metering.UndisturbedIsHonest | crates/ddns-server/src/session.rs:242-252 | a call no other swap falls into always does |
| Metering.SplitIff | crates/ddns-server/src/session.rs:242-252 | in every run the deltas add up to the watermark, as integers, exactly when no swap stores less than the one before it; `Metering.Billed` gives the excess |
| Metering.StaleLoadWraps | crates/ddns-server/src/session.rs:246-250 | two callers can make one delta wrap around |
| Session.TunnelSession.RegisterStream | crates/ddns-server/src/session.rs:269-281 | performs two steps of the admission machine, and refuses exactly over a limit |
| Session.TunnelSession.ReleaseStream | crates/ddns-server/src/session.rs:287-289 | gives one held slot back |
| Session.TunnelSession.NextStreamId | crates/ddns-server/src/session.rs:262-264 | one more than the last id, modulo 2^32 |
| Session.TunnelSession.TakeUsageDelta | crates/ddns-server/src/session.rs:245-252 | performs load and swap of both metering machines and returns their deltas |
| Session.TunnelSession.RecordDebug | crates/ddns-server/src/session.rs:226-232 | the ring keeps the newest hundred entries in order |
| Slots.IsAdmission | crates/ddns-server/src/http_tunnel.rs:79-103 | every run of any number of connections of every kind is a run of the admission machine: nobody releases a slot it has not got |
| Slots.AtMostOnce | crates/ddns-server/src/http_tunnel.rs:97-104 | in every run a connection gives a slot back at most once, and only if it was granted one |
| Slots.CounterAtRest | crates/ddns-server/src/http_tunnel.rs:202-204 | when every connection has left, the counter is the number of those that left by one of three ways without a release, and zero exactly if there are none |
| Slots.ForgottenBlock | crates/ddns-server/src/udp_bridge.rs:225-244 | once as many slots as the limit are lost that way, every later call is refused |
| Slots.SlotsLost | crates/ddns-server/src/http_tunnel.rs:202-204 | any mixture of the three ways, up to the limit, has a run after which nobody is there and the counter is their number |
| Slots.NobodyGetsIn | crates/ddns-server/src/http_tunnel.rs:79-81 | with as many losses as the limit there is a run after which the next call is refused though nobody is there |
| Slots.TcpGivesBack | crates/ddns-server/src/tcp_bridge.rs:39-133 | a TCP connection that has ended holds no slot |
| Slots.WaysOut | crates/ddns-server/src/http_tunnel.rs:181-224 | whatever the limits, each way out that a connection's kind has is taken by some run, and exactly three of them leave the counter at one |
| TokenBucket.AcceptedIff | crates/ddns-server/src/rate_limit.rs:65-72 | a request passes exactly when no window ending with it would exceed capacity plus rate times its length in seconds |
| TokenBucket.IdleRefills | crates/ddns-server/src/rate_limit.rs:63-72 | between two requests a bucket gains rate tokens a second up to its capacity, and a request takes one if there is one |
| TokenBucket.BucketObeys | crates/ddns-server/src/rate_limit.rs:65-72 | no window of any run exceeds that budget |
| TokenBucket.BucketIsBest | crates/ddns-server/src/rate_limit.rs:65-72 | no limiter within the budget lets more requests through in any prefix of the run |
| TokenBucket.PruneKeepsIff | crates/ddns-server/src/rate_limit.rs:55-58 | pruning drops nothing exactly when the capacity is not zero |
| TokenBucket.RateLimiter.Allow | crates/ddns-server/src/rate_limit.rs:51-73 | the answer is that of the address's own request times, whatever else was asked or pruned, and that of the stored tokens plus the seconds since times the rate; no address is always allowed |
| TokenBucket.RateLimiter.Prune | crates/ddns-server/src/rate_limit.rs:55-58 | keeps every address's answers |
| TokenBucket.ControlLimiter.Allow | crates/ddns-server/src/mux.rs:571-582 | answers like a bucket full at the first request; tokens left are those before plus the seconds since times the rate, at most the capacity, less one if granted |
| Calendar.CivilIsRight | crates/ddns-server/src/quota.rs:60-76 | day 0 is 1970-01-01, every day is a Gregorian date, the next day number is the next date |
| Calendar.CivilOnto | crates/ddns-server/src/quota.rs:65-75 | every Gregorian date is the date of its day number |
| Calendar.CivilInverse | crates/ddns-server/src/quota.rs:65-75 | the day number is recovered from the date |
| Stamps.DateReads | crates/ddns-server/src/lib.rs:70-83 | a date stamp reads year, month, day of the civil date, in this order, with dashes between |
| Stamps.WindowReads | crates/ddns-server/src/quota.rs:60-76 | a window's name reads year, month, day, hour, minute |
| Stamps.SameDayIff | crates/ddns-server/src/lib.rs:70-83 | two times have one date stamp exactly when they lie in one day |
| Stamps.SameMinuteIff | crates/ddns-server/src/quota.rs:60-76 | two times have one window exactly when they lie in one minute |
| Stamps.StampsAgree | crates/ddns-server/src/lib.rs:70-83 | the date in a window's name tells days apart exactly as the date stamp does |
| MinuteWindow.KeysSpell | crates/ddns-server/src/quota.rs:129-132 | the keys spell out account, tunnel or address, and window |
| MinuteWindow.KeysDistinct | crates/ddns-server/src/quota.rs:129-132 | two requests share a counter exactly when they are about the same thing in the same minute; tunnel and address keys never meet for a name without a colon |
| MinuteWindow.ReplyIsCount | crates/ddns-server/src/hot.rs:94-106 | an increment answers how many there were: no counter expires inside its minute |
| MinuteWindow.PassedIff | crates/ddns-server/src/quota.rs:134-149 | a request passes exactly when fewer than rpm came before it for its tunnel and from its address |
| MinuteWindow.PassedStays | crates/ddns-server/src/quota.rs:119-150 | increments that come later change no answer that was given |
| MinuteWindow.TunnelPerMinute | crates/ddns-server/src/quota.rs:119-150 | of the requests the limiter has let through at most rpm a minute are for one tunnel, whatever their own limits up to rpm |
| MinuteWindow.IpPerMinute | crates/ddns-server/src/quota.rs:119-150 | and at most rpm a minute come from one address |
| MinuteWindow.TunnelPerSixtySeconds | crates/ddns-server/src/quota.rs:119-150 | at most twice rpm are let through in any sixty seconds, per tunnel |
| MinuteWindow.IpPerSixtySeconds | crates/ddns-server/src/quota.rs:119-150 | and per address |
| MinuteWindow.LogIsMinutely | crates/ddns-server/src/quota.rs:129-132 | increments of one key are made within one minute, for every log of keys as the limiter makes them |
| MinuteWindow.RetryReachesNextWindow | crates/ddns-server/src/quota.rs:86-88 | the delay is 1 to 60 and leads to the first second of the next window, no sooner |
| MinuteWindow.FreshWindow | crates/ddns-server/src/quota.rs:86-88 | after it only requests made since the minute began are counted |
| MinuteWindow.HotCounter.IncrExpire | crates/ddns-server/src/hot.rs:94-106 | adds one increment to the log, heard or not, renews the expiry to 120 seconds and answers the count; or fails and has done nothing; other keys stay |
| MinuteWindow.RateLimiter.Check | crates/ddns-server/src/quota.rs:119-150 | two increments, the second only after an answer; of all requests the store has answered exactly those are let through that pass by the counts of the log; rpm 0 or a failing store lets the request pass |
| Base32.AlphabetOrder | crates/ddns-server/src/otp.rs:13-38 | which symbol stands for which number, in both directions |
| Base32.RoundTrip | crates/ddns-server/src/otp.rs:22-62 | decoding an encoding gives the data back, padded or not, and the text has ceil(8n/5) symbols |
| Base32.CaseFree | crates/ddns-server/src/otp.rs:40-62 | any text decodes as its lower case does, or is rejected with it |
| Base32.NarrowDecides | crates/ddns-server/src/otp.rs:51-53 | texts with the same low bytes in upper case decode alike |
| Base32.RejectedIff | crates/ddns-server/src/otp.rs:40-54 | the exact set of rejected texts; for ASCII, those with a foreign character before the padding |
| Base32.WideCharactersAccepted | crates/ddns-server/src/otp.rs:51-53 | whatever the data, a text without a single character of the alphabet decodes to it |
| Base32.Encode | crates/ddns-server/src/otp.rs:22-38 | the loop over a wrapping 32-bit buffer yields the data's bits five at a time |
| Base32.Decode | crates/ddns-server/src/otp.rs:43-62 | the loop yields the symbols' bits eight at a time, or nothing |
| Totp.TruncateBits | crates/ddns-server/src/otp.rs:89-94 | truncation takes 31 of the 32 bits at the offset the last four bits name |
| Totp.CounterBits | crates/ddns-server/src/otp.rs:83-86 | the counter is hashed as eight bytes, the most significant first |
| Totp.CodeReads | crates/ddns-server/src/otp.rs:81-96 | the code's digits are those 31 bits of the hash of the half minute, modulo a million |
| Totp.WorkedExample | crates/ddns-server/src/otp.rs:201-221 | the first counter of RFC 4226's example: digest to 287082 |
| Totp.WhiteSpace | crates/ddns-server/src/otp.rs:99-101 | the white space that is trimmed, character by character |
| Totp.TrimIs | crates/ddns-server/src/otp.rs:99-101 | trimming takes white space off both ends, all of it and nothing else |
| Totp.CodeIsSixDigits | crates/ddns-server/src/otp.rs:81-96 | whatever the keyed hash answers, a code is six digits |
| Totp.AcceptedAround | crates/ddns-server/src/otp.rs:99-118 | a code verifies for thirty seconds before and after its time, with white space around it or not |
| Totp.AcceptedIff | crates/ddns-server/src/otp.rs:99-118 | and only a code of the same or a neighbouring step does |
| Totp.LastStepWraps | crates/ddns-server/src/otp.rs:110-113 | in the last step of 64-bit time the very first code verifies too |
| Totp.NoSecretNoEntry | crates/ddns-server/src/otp.rs:81-83 | a secret that does not decode accepts no code |
| Totp.CodeEq | crates/ddns-server/src/otp.rs:123-134 | the XOR fold over six bytes is equality |
| Totp.Verify | crates/ddns-server/src/otp.rs:99-118 | the loop tries exactly the three steps around the time |
| TokenStore.ScanDeserves | crates/ddns-server/src/token.rs:373-388 | trying every row in any order returns the enabled token that has the secret |
| TokenStore.DeservesOne | crates/ddns-server/src/token.rs:329-393 | that answer is unique, so index and scan agree |
| TokenStore.LimitsSurviveIff | crates/ddns-server/src/token.rs:145-176 | the secret of a token earns the limits it was created with, through the casts to the columns and back, exactly when the four that have no column are off |
| TokenStore.ColumnByColumn | crates/ddns-server/src/token.rs:224-245 | each column holds its own limit, as it is below 2^63 and as a negative number that comes back above |
| TokenStore.Store.ReloadCache | crates/ddns-server/src/token.rs:145-193 | after a reload the cache is the table and the index leads every digest to its row |
| TokenStore.Store.Insert | crates/ddns-server/src/token.rs:266-276 | a token is stored under its id, all others are untouched |
| TokenStore.Store.CreateOwned | crates/ddns-server/src/token.rs:289-315 | a new enabled token with the stored limits |
| TokenStore.Store.SetEnabled | crates/ddns-server/src/token.rs:415-430 | switches one token and nothing else |
| TokenStore.Store.Delete | crates/ddns-server/src/token.rs:432-444 | removes one token and its secret |
| TokenStore.Store.Validate | crates/ddns-server/src/token.rs:329-393 | answers as the scan does, with one slow verify on a hit, none on a miss without legacy rows, at most their number otherwise |
| RegistryRace.OvershootBounded | crates/ddns-server/src/registry.rs:89-169 | in any interleaving of K calls that count shard by shard, inserts and removals, the server's and a token's cap are exceeded by at most K - 1 |
| RegistryRace.OvershootReached | crates/ddns-server/src/registry.rs:89-169 | for any caps, shards, hash, token and K there is a run in which the token has the smaller of the server's cap and its own, less 1, plus K sessions |
| RegistryRace.NeverTakesOver | crates/ddns-server/src/registry.rs:125-169 | inserting a session never replaces one: a call whose slug is in use draws again or gives up |
| Registry.LowerIff | crates/ddns-server/src/registry.rs:177-181 | two hosts are one exactly when they differ in the case of ASCII letters alone |
| Registry.Registry.Allocate | crates/ddns-server/src/registry.rs:74-170 | one call at a time: each outcome exactly when it is due and with its numbers, the cap exact, failures change nothing |
| Registry.Registry.CustomHost | crates/ddns-server/src/registry.rs:177-181 | a known host, in any case, leads to a live session |
| Registry.Registry.Remove | crates/ddns-server/src/registry.rs:183-190 | takes the session and every host that led to it |
| TunnelTable.SlugIs | crates/ddns-server/src/tunnel.rs:557-562 | a subdomain is one to 63 small letters, digits and dashes |
| TunnelTable.LabelsSplit | crates/ddns-server/src/tunnel.rs:568 | the labels have no dots, and with dots between them they are the name |
| TunnelTable.CheckHostname | crates/ddns-server/src/tunnel.rs:564-584 | accepts exactly names of proper labels |
| TunnelTable.HostnameIsLower | crates/ddns-server/src/tunnel.rs:564-584 | an accepted host is its own lower case |
| TunnelTable.HostResolves | crates/ddns-server/src/tunnel.rs:425-441 | a host, however written, belongs to one row at most, and that row has it in lower case |
| TunnelTable.Validate | crates/ddns-server/src/tunnel.rs:511-555 | accepts exactly a known token and domain, a free name, and one free and valid host at most; otherwise names the first thing that is wrong |
| TunnelTable.AcceptableIff | crates/ddns-server/src/tunnel.rs:197-251 | what passes the checks is exactly what is proper, about a known token and domain, and clashes with no other row |
| TunnelTable.KeepPut | crates/ddns-server/src/tunnel.rs:309-360 | writing such a row keeps names, subdomains and hosts unique |
| TunnelTable.ToggleKeepsCapIff | crates/ddns-server/src/tunnel.rs:388-406 | switching keeps the tenant's cap exactly when the tunnel was on or there was room |
| TunnelTable.TunnelStore.CreateChecked | crates/ddns-server/src/tunnel.rs:197-307 | succeeds exactly when valid, under the cap and with a fresh id, and otherwise says which of the three failed; keeps the table's invariant and the cap |
| TunnelTable.TunnelStore.Update | crates/ddns-server/src/tunnel.rs:309-360 | rewrites one row, not its owner or switch; an unknown id changes nothing |
| TunnelTable.TunnelStore.Toggle | crates/ddns-server/src/tunnel.rs:388-406 | flips one switch, an unknown id is an error |
| TunnelTable.TunnelStore.Delete | crates/ddns-server/src/tunnel.rs:376-386 | removes one row |
| TunnelTable.TunnelStore.DeleteForToken | crates/ddns-server/src/tunnel.rs:364-374 | removes exactly the rows of the token |
| Challenges.BaseIs | crates/ddns-server/src/dns_acme.rs:279 | the base is what is left when all leading wildcard labels are gone |
| Challenges.RecordStandsUnder | crates/ddns-server/src/providers.rs:240-241 | the record of a domain and of its wildcards stands under `_acme-challenge.` and the domain's name |
| Challenges.PresentShows | crates/ddns-server/src/dns_acme.rs:262-296 | while the CA validates, every authorization's digest is shown under its own domain's name |
| Challenges.DeletedIs | crates/ddns-server/src/providers.rs:256-271 | a clear deletes the records in order, up to the first delete that fails |
| Challenges.WildcardSharesName | crates/ddns-server/src/dns_acme.rs:279 | apex and wildcard put their digests on one record name |
| Challenges.Provider.WriteChallenge | crates/ddns-server/src/providers.rs:240-255 | creates one record and remembers it, or changes nothing |
| Challenges.Provider.ClearChallenge | crates/ddns-server/src/providers.rs:256-271 | forgets the domain and deletes its records up to the first delete that fails |
| Challenges.Issuer.Issue | crates/ddns-server/src/dns_acme.rs:230-296 | whatever step fails, the zone afterwards is the zone before exactly when all deletes of the order's records succeed; during validation every record is there |
| Renewal.ReusedIff | crates/ddns-server/src/dns_acme.rs:183-218 | a cached certificate is served again exactly if it has more than thirty days left; what is not installed changes nothing |
| Renewal.SleepsRight | crates/ddns-server/src/dns_acme.rs:150-174 | a pass sleeps a minute if it installed nothing, otherwise until thirty days are left, but not less than a minute or more than twelve hours |
| Renewal.KeepLasting | crates/ddns-server/src/dns_acme.rs:150-218 | each pass, with any bundle or none in the cache and whatever issuing and installing come to, keeps the served certificate's remaining time above the bound |
| Renewal.AlwaysLasting | crates/ddns-server/src/dns_acme.rs:150-218 | at every instant of every run more than 30 days less 60 s less the time owed are left |
| Renewal.ThirtyDaysLessAMinute | crates/ddns-server/src/dns_acme.rs:150-218 | not counting time spent issuing, more than 30 days less 60 s |
| Renewal.TheMinuteIsUsed | crates/ddns-server/src/dns_acme.rs:153-156 | the loop does let it come to within a second of that |
| Renewal.Loop.Pass | crates/ddns-server/src/dns_acme.rs:150-218 | one pass performs one round of the model |
| Renewal.Loop.Run | crates/ddns-server/src/dns_acme.rs:150-174 | the loop performs the run |

## Left out

- Sockets, TLS, the WebSocket transport, WebRTC and SQL text: a socket is a byte sequence that may fail at any time, a table is a map.
- UDP flows: they share the id counter (`DrawId`), the queues (`DownForeign`, `UpForeign`, Close frames of a stalled flow included) and the stream slots (`Slots`), and have tables of their own.
- Streams after 2^32 ids have been drawn in one session: ids repeat (`Transparency.IdsRepeat`), and what a second stream under a live id then does is not modelled.
- Liveness: nothing says that a stream ends. The broker's TCP bridge ignores OpenReject, the client sends no Close back after one, and its loop holds a table guard while it waits for room.
- Metering of received bytes per frame: Data is counted when it is routed and again when it is consumed.
- Transparency.LocalToVisitor: for HTTP the head counts as written when it is taken; parsing and rebuilding it for the visitor is not modelled, and neither is the 101 response, after which nothing more is written.
- Tunnel.Ready: wall-clock bounds (30 s handshake, 30 s stall, 5 s local write, 500 ms grace) are not modelled, a timeout may strike whenever its wait is on.
- RegistryRace.OvershootBounded: custom hosts are left to the sequential registry.
- TokenStore.Store.Validate: mutations are atomic; the program takes its snapshot under the lock and installs it after, so two reloads can cross.
- TokenBucket.RateLimiter.Allow: rounding of 64-bit floating point.
- Challenges.Issuer.Issue: an order that is cancelled between a create and its bookkeeping, and Porkbun's zone suffix check, which only makes a create fail.
- Policies, domains, accounts, pages, the command line, the visitor's connector, STUN and WireGuard: independent of the above, or plain bookkeeping.
