/** Cutting bytes into frames, and finding the end of an HTTP head in a stream that arrives in pieces. */
module HttpHead {
  import opened Bytes
  import opened Items
  import Frames

  const HEAD_LIMIT: nat := 64 * 1024
  const CRLF2: seq<byte> := [13, 10, 13, 10]
  const HTTP: seq<byte> := [72, 84, 84, 80, 47] // "HTTP/"

  // ---- slice::chunks ----

  /** `data.chunks(n)` as data frames: full pieces, then what is left. */
  function Chunks(data: seq<byte>, n: nat): (items: seq<Item>)
    requires n > 0
    ensures forall i :: i in items ==> i.Chunk? && 0 < |i.data| <= n
    ensures LeadCount(items) == 0
    decreases |data|
  {
    if data == [] then []
    else if |data| <= n then [Chunk(data)]
    else [Chunk(data[..n])] + Chunks(data[n..], n)
  }

  lemma {:induction false} CarryChunks(data: seq<byte>, n: nat)
    requires n > 0
    ensures Carry(Chunks(data, n)) == data
    decreases |data|
  {
    if |data| > n {
      CarryChunks(data[n..], n);
      assert data == data[..n] + data[n..];
    } else if data != [] {
      One(Chunk(data));
    }
  }

  lemma ChunksStep(data: seq<byte>, n: nat)
    requires n > 0 && data != []
    ensures var k := if |data| <= n then |data| else n;
            Chunks(data, n) == [Chunk(data[..k])] + Chunks(data[k..], n)
  {
    if |data| <= n {
      assert data[..|data|] == data && data[|data|..] == [];
    }
  }

  /** Every piece but the last is full, and no piece is empty. */
  lemma {:induction false} ChunksAreFull(data: seq<byte>, n: nat)
    requires n > 0
    ensures var items := Chunks(data, n);
            && ((|items| - 1) * n < |data| <= |items| * n || (items == [] && data == []))
            && forall i :: 0 <= i < |items| - 1 ==> items[i].Chunk? && |items[i].data| == n
    decreases |data|
  {
    if |data| > n {
      ChunksAreFull(data[n..], n);
      var rest := Chunks(data[n..], n);
      assert (|rest| + 1) * n == |rest| * n + n;
    }
  }

  lemma NoChunks(n: nat)
    requires n > 0
    ensures Chunks([], n) == []
  {
  }

  /** The loop of a pump over one read: one data frame a piece, in order. */
  method CutChunks(data: seq<byte>, n: nat) returns (items: seq<Item>)
    requires n > 0
    ensures items == Chunks(data, n) && Carry(items) == data
  {
    hide Chunks, Carry;
    items := [];
    var rest := data;
    while rest != []
      invariant items + Chunks(rest, n) == Chunks(data, n)
      decreases |rest|
    {
      var k := if |rest| <= n then |rest| else n;
      ChunksStep(rest, n);
      assert items + ([Chunk(rest[..k])] + Chunks(rest[k..], n)) == items + [Chunk(rest[..k])] + Chunks(rest[k..], n);
      items, rest := items + [Chunk(rest[..k])], rest[k..];
    }
    NoChunks(n);
    CarryChunks(data, n);
  }

  // ---- the end of the head ----

  /** The blank line ends just before `e`. */
  predicate EndsAt(buf: seq<byte>, e: nat) {
    4 <= e <= |buf| && buf[e - 4] == 13 && buf[e - 3] == 10 && buf[e - 2] == 13 && buf[e - 1] == 10
  }

  function HeadEndFrom(buf: seq<byte>, p: nat): (end: Option<nat>)
    ensures end.Some? ==> p + 4 <= end.value && EndsAt(buf, end.value)
    ensures forall e :: p + 4 <= e && (end.Some? ==> e < end.value) ==> !EndsAt(buf, e)
    decreases |buf| - p
  {
    if p + 4 > |buf| then None
    else if EndsAt(buf, p + 4) then Some(p + 4)
    else HeadEndFrom(buf, p + 1)
  }

  /** Just past the first blank line. */
  function HeadEnd(buf: seq<byte>): (end: Option<nat>)
    ensures end.Some? ==> EndsAt(buf, end.value)
    ensures forall e: nat :: (end.Some? ==> e < end.value) ==> !EndsAt(buf, e)
  {
    HeadEndFrom(buf, 0)
  }

  predicate BlankLine(buf: seq<byte>, p: nat) {
    p + 4 <= |buf| && buf[p..p + 4] == [13, 10, 13, 10]
  }

  lemma BlankEnds(buf: seq<byte>, p: nat)
    ensures BlankLine(buf, p) <==> EndsAt(buf, p + 4)
  {
    if p + 4 <= |buf| {
      var w := buf[p..p + 4];
      assert w == [13, 10, 13, 10] <==> w[0] == 13 && w[1] == 10 && w[2] == 13 && w[3] == 10;
    }
  }

  /** The head ends with the first four bytes in a row that are CR, LF, CR, LF. */
  lemma FirstBlankLine(buf: seq<byte>, e: nat)
    ensures HeadEnd(buf) == Some(e) <==> e >= 4 && BlankLine(buf, e - 4) && forall p: nat :: p + 4 < e ==> !BlankLine(buf, p)
  {
    hide HeadEnd, EndsAt, BlankLine;
    forall p: nat
      ensures BlankLine(buf, p) <==> EndsAt(buf, p + 4)
    {
      BlankEnds(buf, p);
    }
    if HeadEnd(buf).Some? {
      var end := HeadEnd(buf).value;
      EndsWithin(buf, end);
      assert BlankLine(buf, end - 4);
      assert EndsAt(buf, e) ==> end <= e;
    } else if e >= 4 {
      assert !EndsAt(buf, e);
    }
  }

  lemma WindowIsEnd(buf: seq<byte>, p: nat)
    requires p + 4 <= |buf|
    ensures buf[p..p + 4] == CRLF2 <==> EndsAt(buf, p + 4)
  {
    var w := buf[p..p + 4];
    assert w == CRLF2 <==> w[0] == 13 && w[1] == 10 && w[2] == 13 && w[3] == 10;
  }

  /** `find_head_end`: the first window of four bytes that is a blank line. */
  method FindHeadEnd(buf: seq<byte>) returns (end: Option<nat>)
    ensures end == HeadEnd(buf)
  {
    var p := 0;
    while p + 4 <= |buf|
      invariant 0 <= p
      invariant HeadEndFrom(buf, p) == HeadEnd(buf)
    {
      WindowIsEnd(buf, p);
      if buf[p..p + 4] == CRLF2 {
        return Some(p + 4);
      }
      p := p + 1;
    }
    return None;
  }

  lemma EndsWithin(buf: seq<byte>, e: nat)
    requires EndsAt(buf, e)
    ensures 4 <= e <= |buf|
  {
  }

  lemma EndsAtPrefix(a: seq<byte>, b: seq<byte>, e: nat)
    requires e <= |a|
    ensures EndsAt(a + b, e) <==> EndsAt(a, e)
  {
  }

  /** What arrives later cannot move the end of the head; an end not there yet will be past what is. */
  lemma HeadEndStable(a: seq<byte>, b: seq<byte>)
    ensures HeadEnd(a).Some? ==> HeadEnd(a + b) == HeadEnd(a)
    ensures HeadEnd(a).None? && HeadEnd(a + b).Some? ==> HeadEnd(a + b).value > |a|
  {
    hide HeadEnd, EndsAt;
    if HeadEnd(a).Some? {
      var e := HeadEnd(a).value;
      assert e <= |a| by {
        EndsWithin(a, e);
      }
      EndsAtPrefix(a, b, e);
      var e' := HeadEnd(a + b).value;
      if e' < e {
        EndsAtPrefix(a, b, e');
      }
    } else if HeadEnd(a + b).Some? && HeadEnd(a + b).value <= |a| {
      EndsAtPrefix(a, b, HeadEnd(a + b).value);
    }
  }

  // ---- splitting a response that arrives in pieces ----

  /** The two places that split: how much one read may return, and whether the head must look like HTTP. */
  datatype Splitter = Splitter(maxRead: nat, needHttp: bool)

  const CLIENT: Splitter := Splitter(1024, true)
  const P2P: Splitter := Splitter(4096, false)

  /** `used` counts the pieces up to the decision. */
  datatype Outcome = Ack(head: seq<byte>, rest: seq<byte>, used: nat) | Refuse

  predicate LooksRight(w: Splitter, buf: seq<byte>) {
    w.needHttp ==> HTTP <= buf
  }

  predicate ValidPieces(w: Splitter, pieces: seq<seq<byte>>) {
    forall r :: r in pieces ==> 0 < |r| <= w.maxRead
  }

  /** The handshake from a buffer on; running out of pieces is the local server closing its side. */
  function Split(w: Splitter, buf: seq<byte>, pieces: seq<seq<byte>>): Outcome
    decreases |pieces|
  {
    if pieces == [] then Refuse else
    var buf' := buf + pieces[0];
    if |buf'| > HEAD_LIMIT then Refuse else
    var end := HeadEnd(buf');
    if end.Some? then Answer(w, buf', end.value)
    else Later(Split(w, buf', pieces[1..]))
  }

  function Answer(w: Splitter, buf: seq<byte>, end: nat): Outcome
    requires EndsAt(buf, end)
  {
    if LooksRight(w, buf) then Ack(buf[..end], buf[end..], 1) else Refuse
  }

  function Later(o: Outcome): Outcome {
    if o.Ack? then o.(used := o.used + 1) else o
  }

  /** The loop of `stream_task`'s handshake (and of `serve_one_request`, with its own limits). */
  method Handshake(w: Splitter, pieces: seq<seq<byte>>) returns (o: Outcome)
    ensures o == Split(w, [], pieces)
  {
    var headBuf := [];
    var n := 0;
    while n < |pieces|
      invariant n <= |pieces|
      invariant var rest := Split(w, headBuf, pieces[n..]);
                Split(w, [], pieces) == if rest.Ack? then rest.(used := rest.used + n) else rest
    {
      headBuf := headBuf + pieces[n];
      assert pieces[n..][0] == pieces[n] && pieces[n..][1..] == pieces[n + 1..];
      n := n + 1;
      if |headBuf| > HEAD_LIMIT {
        return Refuse;
      }
      var end := FindHeadEnd(headBuf);
      if end.Some? {
        if !LooksRight(w, headBuf) {
          return Refuse;
        }
        return Ack(headBuf[..end.value], headBuf[end.value..], n);
      }
    }
    return Refuse;
  }

  /** How many bytes have been read when the first `e` are complete. */
  function Covered(pieces: seq<seq<byte>>, e: int): nat
    decreases |pieces|
  {
    if pieces == [] || e <= 0 then 0
    else if e <= |pieces[0]| then |pieces[0]|
    else |pieces[0]| + Covered(pieces[1..], e - |pieces[0]|)
  }

  predicate Accepts(w: Splitter, buf: seq<byte>, pieces: seq<seq<byte>>) {
    var s := buf + Flat(pieces);
    var end := HeadEnd(s);
    end.Some? && LooksRight(w, s) && |buf| + Covered(pieces, end.value - |buf|) <= HEAD_LIMIT
  }

  /** Where an accepted response is cut. */
  predicate CutRight(buf: seq<byte>, pieces: seq<seq<byte>>, o: Outcome)
    requires o.Ack?
  {
    var s := buf + Flat(pieces);
    HeadEnd(s) == Some(|o.head|) && o.head <= s && 1 <= o.used <= |pieces| &&
    o.head + o.rest == buf + Flat(pieces[..o.used])
  }

  /**
   * The exact rule: the response is accepted iff it has a head that looks right and the pieces that complete
   * it stay within the limit; then the split is at the end of the head, wherever the pieces were cut.
   */
  lemma {:induction false} SplitExact(w: Splitter, buf: seq<byte>, pieces: seq<seq<byte>>)
    requires HeadEnd(buf).None?
    ensures var o := Split(w, buf, pieces); (o.Ack? <==> Accepts(w, buf, pieces)) && (o.Ack? ==> CutRight(buf, pieces, o))
    decreases |pieces|
  {
    hide HeadEnd, EndsAt;
    if pieces == [] {
      assert buf + Flat(pieces) == buf;
    } else {
      var buf' := buf + pieces[0];
      var tail := Flat(pieces[1..]);
      assert buf + Flat(pieces) == buf' + tail;
      HeadEndStable(buf, pieces[0]);
      HeadEndStable(buf', tail);
      if HeadEnd(buf').Some? {
        SplitNow(w, buf, pieces);
      } else {
        SplitExact(w, buf', pieces[1..]);
        SplitLater(w, buf, pieces);
      }
    }
  }

  /** The piece that completes the head. */
  lemma SplitNow(w: Splitter, buf: seq<byte>, pieces: seq<seq<byte>>)
    requires pieces != [] && HeadEnd(buf).None? && HeadEnd(buf + pieces[0]).Some?
    ensures var o := Split(w, buf, pieces); (o.Ack? <==> Accepts(w, buf, pieces)) && (o.Ack? ==> CutRight(buf, pieces, o))
  {
    hide HeadEnd, EndsAt;
    var buf' := buf + pieces[0];
    var tail := Flat(pieces[1..]);
    var e := HeadEnd(buf').value;
    var s := buf + Flat(pieces);
    assert s == buf' + tail;
    HeadEndStable(buf, pieces[0]);
    HeadEndStable(buf', tail);
    EndsWithin(buf', e);
    LooksRightPrefix(w, buf', tail);
    assert Covered(pieces, e - |buf|) == |pieces[0]|;
    assert |buf| + |pieces[0]| == |buf'|;
    assert Accepts(w, buf, pieces) <==> LooksRight(w, s) && |buf'| <= HEAD_LIMIT;
    var o := Split(w, buf, pieces);
    if o.Ack? {
      assert o == Ack(buf'[..e], buf'[e..], 1);
      assert pieces[..1] == [pieces[0]] && Flat(pieces[..1]) == pieces[0] + Flat([]);
      assert o.head + o.rest == buf';
      assert o.head == s[..e];
    }
  }

  /** A blank line in a buffer that starts like HTTP leaves room for the start; later bytes do not matter. */
  lemma LooksRightPrefix(w: Splitter, a: seq<byte>, b: seq<byte>)
    requires HeadEnd(a).Some?
    ensures LooksRight(w, a + b) <==> LooksRight(w, a)
  {
    var e := HeadEnd(a).value;
    if HTTP <= a + b && |a| < 5 {
      assert a[0] == (a + b)[0] == HTTP[0];
    }
    if HTTP <= a + b && |a| >= 5 {
      assert a[..5] == (a + b)[..5] == HTTP;
    }
    if HTTP <= a {
      assert (a + b)[..5] == a[..5] == HTTP;
    }
  }

  lemma SplitLater(w: Splitter, buf: seq<byte>, pieces: seq<seq<byte>>)
    requires pieces != [] && HeadEnd(buf).None? && HeadEnd(buf + pieces[0]).None?
    requires var b := buf + pieces[0]; var o := Split(w, b, pieces[1..]);
             (o.Ack? <==> Accepts(w, b, pieces[1..])) && (o.Ack? ==> CutRight(b, pieces[1..], o))
    ensures var o := Split(w, buf, pieces); (o.Ack? <==> Accepts(w, buf, pieces)) && (o.Ack? ==> CutRight(buf, pieces, o))
  {
    hide HeadEnd, EndsAt, CutRight;
    var buf' := buf + pieces[0];
    var s := buf + Flat(pieces);
    assert s == buf' + Flat(pieces[1..]);
    HeadEndStable(buf', Flat(pieces[1..]));
    if HeadEnd(s).Some? {
      var e := HeadEnd(s).value;
      assert Covered(pieces, e - |buf|) == |pieces[0]| + Covered(pieces[1..], e - |buf'|);
    }
    var o := Split(w, buf', pieces[1..]);
    if o.Ack? {
      LaterCut(buf, pieces, o);
    }
  }

  lemma LaterCut(buf: seq<byte>, pieces: seq<seq<byte>>, o: Outcome)
    requires pieces != [] && o.Ack? && CutRight(buf + pieces[0], pieces[1..], o)
    ensures CutRight(buf, pieces, Later(o))
  {
    hide HeadEnd, EndsAt;
    var buf' := buf + pieces[0];
    assert buf + Flat(pieces) == buf' + Flat(pieces[1..]);
    var used := o.used + 1;
    assert pieces[..used][0] == pieces[0] && pieces[..used][1..] == pieces[1..][..o.used];
    assert buf' + Flat(pieces[1..][..o.used]) == buf + Flat(pieces[..used]);
  }

  // ---- what the rule means for a sender ----

  lemma {:induction false} CoveredBounds(w: Splitter, pieces: seq<seq<byte>>, e: nat)
    requires ValidPieces(w, pieces) && 0 < e <= |Flat(pieces)|
    ensures e <= Covered(pieces, e) <= e + w.maxRead - 1
    decreases |pieces|
  {
    assert pieces[0] in pieces;
    if e > |pieces[0]| {
      CoveredBounds(w, pieces[1..], e - |pieces[0]|);
    }
  }

  lemma NoHeadYet()
    ensures HeadEnd([]).None?
  {
  }

  /** A head that leaves room for one read less a byte is accepted however the response is cut; one over the limit never is. */
  lemma AcceptedHeads(w: Splitter, pieces: seq<seq<byte>>)
    requires ValidPieces(w, pieces)
    ensures var s := Flat(pieces); var end := HeadEnd(s); var o := Split(w, [], pieces);
            && (end.Some? && LooksRight(w, s) && end.value <= HEAD_LIMIT - (w.maxRead - 1) ==>
                  o.Ack? && o.head == s[..end.value])
            && (end.Some? && end.value > HEAD_LIMIT ==> o.Refuse?)
            && (end.None? || !LooksRight(w, s) ==> o.Refuse?)
  {
    SplitExact(w, [], pieces);
    var s := Flat(pieces);
    assert [] + s == s;
    var end := HeadEnd(s);
    if end.Some? {
      CoveredBounds(w, pieces, end.value);
    }
  }

  /** Every read returned something, and at most `max` bytes. */
  predicate ReadsUpTo(pieces: seq<seq<byte>>, max: nat) {
    forall r :: r in pieces ==> 1 <= |r| <= max
  }

  /**
   * The two places, in numbers: a stream task reads 1024 bytes at a time and accepts a response whose head leaves 1023
   * exactly when it begins with the five letters `HTTP/`; a peer-to-peer request reads 4096 and takes any beginning.
   */
  lemma HeadsAtBothPlaces(pieces: seq<seq<byte>>)
    ensures var s := Flat(pieces); var end := HeadEnd(s);
            && (ReadsUpTo(pieces, 1024) && end.Some? && end.value <= 65536 - 1023 ==>
                  (Split(CLIENT, [], pieces).Ack? <==>
                     |s| >= 5 && s[0] == 72 && s[1] == 84 && s[2] == 84 && s[3] == 80 && s[4] == 47))
            && (ReadsUpTo(pieces, 4096) && end.Some? && end.value <= 65536 - 4095 ==> Split(P2P, [], pieces).Ack?)
            && (end.None? || end.value > 65536 ==> Split(CLIENT, [], pieces).Refuse? && Split(P2P, [], pieces).Refuse?)
  {
    hide HeadEnd, EndsAt, Split, Flat;
    if ReadsUpTo(pieces, 1024) {
      AcceptedHeads(CLIENT, pieces);
    }
    if ReadsUpTo(pieces, 4096) {
      AcceptedHeads(P2P, pieces);
    }
    NoHeadAtAll(CLIENT, pieces);
    NoHeadAtAll(P2P, pieces);
  }

  lemma NoHeadAtAll(w: Splitter, pieces: seq<seq<byte>>)
    ensures HeadEnd(Flat(pieces)).None? || HeadEnd(Flat(pieces)).value > HEAD_LIMIT ==> Split(w, [], pieces).Refuse?
  {
    hide HeadEnd, EndsAt, Split, Flat;
    NoHeadYet();
    SplitExact(w, [], pieces);
    assert [] + Flat(pieces) == Flat(pieces);
    var end := HeadEnd(Flat(pieces));
    if end.Some? {
      EndsWithin(Flat(pieces), end.value);
      CoveredAtLeast(pieces, end.value);
    }
  }

  lemma {:induction false} CoveredAtLeast(pieces: seq<seq<byte>>, e: int)
    requires e <= |Flat(pieces)|
    ensures Covered(pieces, e) >= e
    decreases |pieces|
  {
    if pieces != [] && e > |pieces[0]| {
      CoveredAtLeast(pieces[1..], e - |pieces[0]|);
    }
  }

  lemma {:induction false} FlatConcat(a: seq<seq<byte>>, b: seq<seq<byte>>)
    ensures Flat(a + b) == Flat(a) + Flat(b)
  {
    if a == [] {
      assert a + b == b;
    } else {
      FlatConcat(a[1..], b);
      assert (a + b)[1..] == a[1..] + b && (a + b)[0] == a[0];
      Join(a[0], Flat(a[1..]), Flat(b));
    }
  }

  /** One byte at a time. */
  function Bytewise(s: seq<byte>): (pieces: seq<seq<byte>>)
    ensures forall p :: p in pieces ==> |p| == 1
    ensures Flat(pieces) == s
  {
    if s == [] then []
    else
      assert [s[0]] + s[1..] == s;
      [[s[0]]] + Bytewise(s[1..])
  }

  lemma FlatCons(p: seq<byte>, pieces: seq<seq<byte>>)
    ensures Flat([p] + pieces) == p + Flat(pieces)
  {
    assert ([p] + pieces)[1..] == pieces;
  }

  lemma CoveredCons(p: seq<byte>, pieces: seq<seq<byte>>, e: nat)
    requires e > |p|
    ensures Covered([p] + pieces, e) == |p| + Covered(pieces, e - |p|)
  {
    assert ([p] + pieces)[1..] == pieces;
  }

  lemma CoveredFirst(p: seq<byte>, pieces: seq<seq<byte>>, e: nat)
    requires 0 < e <= |p|
    ensures Covered([p] + pieces, e) == |p|
  {
  }

  lemma BytewiseCons(s: seq<byte>)
    requires s != []
    ensures Bytewise(s) == [[s[0]]] + Bytewise(s[1..])
  {
  }

  lemma {:induction false} CoveredBytewise(s: seq<byte>, big: seq<byte>, rest: seq<seq<byte>>, e: nat)
    requires |s| < e <= |s| + |big|
    ensures Covered(Bytewise(s) + ([big] + rest), e) == |s| + |big|
  {
    hide Covered, Bytewise, Flat;
    var tail := [big] + rest;
    if s == [] {
      assert Bytewise(s) == [] by {
        BytewiseEmpty();
      }
      assert Bytewise(s) + tail == tail;
      CoveredFirst(big, rest, e);
    } else {
      BytewiseCons(s);
      assert Bytewise(s) + tail == [[s[0]]] + (Bytewise(s[1..]) + tail);
      CoveredCons([s[0]], Bytewise(s[1..]) + tail, e);
      CoveredBytewise(s[1..], big, rest, e - 1);
    }
  }

  lemma BytewiseEmpty()
    ensures Bytewise([]) == []
  {
  }

  /** Byte by byte up to `from`, then one piece of `n` bytes, then byte by byte again. */
  function OneBigPiece(s: seq<byte>, from: nat, n: nat): (pieces: seq<seq<byte>>)
    requires from + n <= |s|
    ensures forall p :: p in pieces ==> |p| == 1 || |p| == n
  {
    Bytewise(s[..from]) + ([s[from..from + n]] + Bytewise(s[from + n..]))
  }

  lemma OneBigPieceFlat(s: seq<byte>, from: nat, n: nat)
    requires from + n <= |s|
    ensures Flat(OneBigPiece(s, from, n)) == s
  {
    hide Bytewise, Flat;
    var big := s[from..from + n];
    FlatConcat(Bytewise(s[..from]), [big] + Bytewise(s[from + n..]));
    FlatCons(big, Bytewise(s[from + n..]));
    assert big + s[from + n..] == s[from..];
    assert s[..from] + s[from..] == s;
  }

  lemma {:induction false} CoveredAtMost(pieces: seq<seq<byte>>, e: int)
    ensures Covered(pieces, e) <= |Flat(pieces)|
    decreases |pieces|
  {
    if pieces != [] {
      CoveredAtMost(pieces[1..], e - |pieces[0]|);
    }
  }

  /** The cutting `p` of the bytes has the response accepted, the cutting `q` of the same bytes has it refused. */
  predicate BothWays(w: Splitter, s: seq<byte>, p: seq<seq<byte>>, q: seq<seq<byte>>) {
    ValidPieces(w, p) && ValidPieces(w, q) && Flat(p) == Flat(q) == s && Split(w, [], p).Ack? && Split(w, [], q).Refuse?
  }

  /** The head just fits, so that the read which completes it can carry the buffer over the limit. */
  predicate InTheBand(w: Splitter, s: seq<byte>) {
    var end := HeadEnd(s);
    end.Some? && LooksRight(w, s) && HEAD_LIMIT - (w.maxRead - 1) < end.value <= HEAD_LIMIT
  }

  /** Arriving byte by byte a response in the band is accepted. */
  lemma BytewiseAccepted(w: Splitter, s: seq<byte>)
    requires InTheBand(w, s)
    ensures ValidPieces(w, Bytewise(s)) && Flat(Bytewise(s)) == s && Split(w, [], Bytewise(s)).Ack?
  {
    hide HeadEnd, EndsAt, Split, Flat, Covered;
    var e := HeadEnd(s).value;
    EndsWithin(s, e);
    assert [] + s == s;
    NoHeadYet();
    SplitExact(w, [], Bytewise(s));
    CoveredBounds(Splitter(1, w.needHttp), Bytewise(s), e);
  }

  /** One read across the end of the head, up to the first byte over the limit. */
  lemma StraddlingRefused(w: Splitter, s: seq<byte>) returns (q: seq<seq<byte>>)
    requires InTheBand(w, s) && |s| > HEAD_LIMIT
    ensures ValidPieces(w, q) && Flat(q) == s && Split(w, [], q).Refuse?
  {
    hide HeadEnd, EndsAt, OneBigPiece, Split, Flat, Covered;
    var e := HeadEnd(s).value;
    EndsWithin(s, e);
    var n := HEAD_LIMIT - e + 2;
    OneBigPieceFlat(s, e - 1, n);
    assert [] + s == s;
    NoHeadYet();
    q := OneBigPiece(s, e - 1, n);
    SplitExact(w, [], q);
    BigCovers(w, s, e, n);
  }

  lemma BigCovers(w: Splitter, s: seq<byte>, e: nat, n: nat)
    requires 1 <= e && 1 <= n <= w.maxRead && e - 1 + n <= |s|
    ensures var q := OneBigPiece(s, e - 1, n); ValidPieces(w, q) && Covered(q, e) == e - 1 + n
  {
    hide Covered, Bytewise, Flat;
    CoveredBytewise(s[..e - 1], s[e - 1..e - 1 + n], Bytewise(s[e - 1 + n..]), e);
  }

  /** What two cuttings that disagree tell about the bytes. */
  lemma BothWaysBand(w: Splitter, s: seq<byte>, p: seq<seq<byte>>, q: seq<seq<byte>>)
    requires BothWays(w, s, p, q)
    ensures InTheBand(w, s) && |s| > HEAD_LIMIT
  {
    hide HeadEnd, EndsAt, Split, Flat, Covered;
    assert [] + s == s;
    NoHeadYet();
    SplitExact(w, [], p);
    SplitExact(w, [], q);
    var e := HeadEnd(s).value;
    EndsWithin(s, e);
    CoveredBounds(w, p, e);
    CoveredBounds(w, q, e);
    CoveredAtMost(q, e);
  }

  /**
   * The answer depends on how a response is cut exactly when its head ends in the band and it has more bytes than the
   * limit in all; everything else is accepted however it is cut, or refused however it is cut.
   */
  lemma CutsMatterIff(w: Splitter, s: seq<byte>)
    ensures (exists p, q :: BothWays(w, s, p, q)) <==> InTheBand(w, s) && |s| > HEAD_LIMIT
  {
    hide HeadEnd, EndsAt, OneBigPiece, Bytewise, Split, Flat, InTheBand;
    if InTheBand(w, s) && |s| > HEAD_LIMIT {
      BytewiseAccepted(w, s);
      var q := StraddlingRefused(w, s);
      assert BothWays(w, s, Bytewise(s), q);
    }
    forall p, q | BothWays(w, s, p, q)
      ensures InTheBand(w, s) && |s| > HEAD_LIMIT
    {
      BothWaysBand(w, s, p, q);
    }
  }

  /** In the band a response can be refused exactly when it is longer than the limit, and it can always be accepted. */
  lemma CutsMatterInTheBand(w: Splitter, s: seq<byte>)
    requires InTheBand(w, s)
    ensures exists p :: ValidPieces(w, p) && Flat(p) == s && Split(w, [], p).Ack?
    ensures (exists q :: ValidPieces(w, q) && Flat(q) == s && Split(w, [], q).Refuse?) <==> |s| > HEAD_LIMIT
  {
    hide HeadEnd, EndsAt, OneBigPiece, Bytewise, Split, Flat, InTheBand;
    BytewiseAccepted(w, s);
    if |s| > HEAD_LIMIT {
      var q := StraddlingRefused(w, s);
    }
    forall q | ValidPieces(w, q) && Flat(q) == s && Split(w, [], q).Refuse?
      ensures |s| > HEAD_LIMIT
    {
      BothWaysBand(w, s, Bytewise(s), q);
    }
  }

  // ---- what the client sends on ----

  /** The frames of an accepted response: the head, what was read past it, and then every further read. */
  function Sent(o: Outcome, later: seq<seq<byte>>): seq<Item>
    requires o.Ack?
  {
    [Lead(o.head)] + Chunks(o.rest, Frames.MAX_FRAME_PAYLOAD) + SentData(later)
  }

  function SentData(later: seq<seq<byte>>): seq<Item> {
    if later == [] then [] else Chunks(later[0], Frames.MAX_FRAME_PAYLOAD) + SentData(later[1..])
  }

  lemma {:induction false} CarrySentData(later: seq<seq<byte>>)
    ensures Carry(SentData(later)) == Flat(later)
  {
    if later != [] {
      CarrySentData(later[1..]);
      CarryChunks(later[0], Frames.MAX_FRAME_PAYLOAD);
      Concat(Chunks(later[0], Frames.MAX_FRAME_PAYLOAD), SentData(later[1..]));
    }
  }

  /** OpenAck and Data payloads together are exactly the bytes read, cut at the end of the head. */
  lemma NothingLost(w: Splitter, pieces: seq<seq<byte>>)
    requires Split(w, [], pieces).Ack?
    ensures var o := Split(w, [], pieces);
            1 <= o.used <= |pieces| && HeadEnd(Flat(pieces)) == Some(|o.head|) &&
            Carry(Sent(o, pieces[o.used..])) == Flat(pieces)
  {
    hide HeadEnd, EndsAt, Carry, Chunks, SentData, Split;
    NoHeadYet();
    SplitExact(w, [], pieces);
    var o := Split(w, [], pieces);
    assert [] + Flat(pieces) == Flat(pieces) && [] + Flat(pieces[..o.used]) == Flat(pieces[..o.used]);
    SentCarries(o, pieces[o.used..]);
    FlatConcat(pieces[..o.used], pieces[o.used..]);
    assert pieces[..o.used] + pieces[o.used..] == pieces;
  }

  lemma SentCarries(o: Outcome, later: seq<seq<byte>>)
    requires o.Ack?
    ensures Carry(Sent(o, later)) == o.head + o.rest + Flat(later)
  {
    hide Carry, Chunks, SentData;
    var c := Chunks(o.rest, Frames.MAX_FRAME_PAYLOAD);
    CarryChunks(o.rest, Frames.MAX_FRAME_PAYLOAD);
    One(Lead(o.head));
    Concat([Lead(o.head)], c);
    Concat([Lead(o.head)] + c, SentData(later));
    CarrySentData(later);
  }
}
