/** Token buckets: the spec of one bucket, and the two limiters that keep them. */
module TokenBucket {
  import opened Bytes

  datatype Params = Params(cap: real, rate: real)

  predicate Sensible(p: Params) {
    p.cap >= 0.0 && p.rate >= 0.0
  }

  function Min(a: real, b: real): real {
    if a <= b then a else b
  }

  predicate Monotone(ts: seq<real>) {
    forall i, j :: 0 <= i <= j < |ts| ==> ts[i] <= ts[j]
  }

  /** What a stretch of time brings. */
  function Gain(p: Params, from: real, to: real): real {
    (to - from) * p.rate
  }

  lemma GainNonNegative(p: Params, from: real, to: real)
    requires Sensible(p) && from <= to
    ensures Gain(p, from, to) >= 0.0
  {
  }

  lemma GainAdds(p: Params, a: real, b: real, c: real)
    ensures Gain(p, a, c) == Gain(p, a, b) + Gain(p, b, c)
  {
  }

  // ---- one bucket, asked at the times `ts` ----

  /** Tokens when request `n` asks. */
  function Available(p: Params, ts: seq<real>, n: nat): real
    requires n < |ts|
    decreases n, 0
  {
    if n == 0 then p.cap else Min(p.cap, Left(p, ts, n - 1) + Gain(p, ts[n - 1], ts[n]))
  }

  /** Tokens after it has been answered. */
  function Left(p: Params, ts: seq<real>, n: nat): real
    requires n < |ts|
    decreases n, 2
  {
    if Accepted(p, ts, n) then Available(p, ts, n) - 1.0 else Available(p, ts, n)
  }

  predicate Accepted(p: Params, ts: seq<real>, n: nat)
    requires n < |ts|
    decreases n, 1
  {
    Available(p, ts, n) >= 1.0
  }

  function Verdicts(p: Params, ts: seq<real>): (v: seq<bool>)
    ensures |v| == |ts| && forall i :: 0 <= i < |ts| ==> v[i] == Accepted(p, ts, i)
  {
    seq(|ts|, i requires 0 <= i < |ts| => Accepted(p, ts, i))
  }

  function Count(v: seq<bool>, i: nat, j: nat): nat
    requires i <= j <= |v|
    decreases j
  {
    if i == j then 0 else Count(v, i, j - 1) + if v[j - 1] then 1 else 0
  }

  lemma {:induction false} CountSplit(v: seq<bool>, i: nat, j: nat, k: nat)
    requires i <= j <= k <= |v|
    ensures Count(v, i, k) == Count(v, i, j) + Count(v, j, k)
    decreases k
  {
    if j < k {
      CountSplit(v, i, j, k - 1);
    }
  }

  /** What a bucket may let through between two requests, both included. */
  function Budget(p: Params, ts: seq<real>, i: nat, j: nat): real
    requires i <= j < |ts|
  {
    p.cap + Gain(p, ts[i], ts[j])
  }

  /** The bound a limiter is asked to keep: over every window. */
  predicate Obeys(p: Params, ts: seq<real>, w: seq<bool>)
    requires |w| == |ts|
  {
    forall i, j :: 0 <= i <= j < |ts| ==> Count(w, i, j + 1) as real <= p.cap + (ts[j] - ts[i]) * p.rate
  }

  lemma BudgetIs(p: Params, ts: seq<real>, i: nat, j: nat)
    requires i <= j < |ts|
    ensures Budget(p, ts, i, j) == p.cap + (ts[j] - ts[i]) * p.rate
  {
  }

  lemma BudgetStep(p: Params, ts: seq<real>, i: nat, j: nat)
    requires i < j < |ts|
    ensures Budget(p, ts, i, j) == Budget(p, ts, i, j - 1) + Gain(p, ts[j - 1], ts[j])
  {
    GainAdds(p, ts[i], ts[j - 1], ts[j]);
  }

  lemma {:induction false} LeftNonNegative(p: Params, ts: seq<real>, n: nat)
    requires Sensible(p) && Monotone(ts) && n < |ts|
    ensures 0.0 <= Left(p, ts, n) && 0.0 <= Available(p, ts, n) <= p.cap
  {
    hide Gain;
    if n == 0 {
      assert Available(p, ts, 0) == p.cap;
    } else {
      LeftNonNegative(p, ts, n - 1);
      GainNonNegative(p, ts[n - 1], ts[n]);
    }
  }

  /** The tokens at hand never exceed what any window still has left … */
  lemma {:induction false} AtMost(p: Params, ts: seq<real>, i: nat, j: nat)
    requires i <= j < |ts|
    ensures Available(p, ts, j) <= Budget(p, ts, i, j) - Count(Verdicts(p, ts), i, j) as real
    decreases j
  {
    if i == j {
      assert Budget(p, ts, i, j) == p.cap;
    } else {
      hide Gain;
      AtMost(p, ts, i, j - 1);
      BudgetStep(p, ts, i, j);
    }
  }

  /** … and some window has no more left than that. */
  lemma {:induction false} Tight(p: Params, ts: seq<real>, j: nat) returns (i: nat)
    requires j < |ts|
    ensures i <= j && Available(p, ts, j) == Budget(p, ts, i, j) - Count(Verdicts(p, ts), i, j) as real
  {
    if j == 0 || Available(p, ts, j) == p.cap {
      i := j;
    } else {
      i := Tight(p, ts, j - 1);
      BudgetStep(p, ts, i, j);
    }
  }

  /** A request is let through exactly when no window ending with it would then be over its budget. */
  lemma AcceptedIff(p: Params, ts: seq<real>, j: nat)
    requires j < |ts|
    ensures Accepted(p, ts, j) <==>
            forall i :: 0 <= i <= j ==> Count(Verdicts(p, ts), i, j) as real + 1.0 <= p.cap + (ts[j] - ts[i]) * p.rate
  {
    hide Gain, Budget;
    forall i | 0 <= i <= j
      ensures Accepted(p, ts, j) ==> Count(Verdicts(p, ts), i, j) as real + 1.0 <= p.cap + (ts[j] - ts[i]) * p.rate
    {
      AtMost(p, ts, i, j);
      BudgetIs(p, ts, i, j);
    }
    var i := Tight(p, ts, j);
    BudgetIs(p, ts, i, j);
  }

  /** The first request finds the bucket full. */
  lemma FirstFindsFull(p: Params, now: real)
    ensures Accepted(p, [now], 0) <==> p.cap >= 1.0
  {
  }

  /** Soundness: no window is ever over its budget. */
  lemma BucketObeys(p: Params, ts: seq<real>)
    requires Sensible(p) && Monotone(ts)
    ensures Obeys(p, ts, Verdicts(p, ts))
  {
    hide Gain, Budget;
    forall i, j | 0 <= i <= j < |ts|
      ensures Count(Verdicts(p, ts), i, j + 1) as real <= p.cap + (ts[j] - ts[i]) * p.rate
    {
      AtMost(p, ts, i, j);
      LeftNonNegative(p, ts, j);
      BudgetIs(p, ts, i, j);
    }
  }

  /** Optimality: no limiter that keeps the bound has ever let more requests through. */
  lemma {:induction false} BucketIsBest(p: Params, ts: seq<real>, w: seq<bool>, n: nat)
    requires |w| == |ts| && Obeys(p, ts, w) && n <= |ts|
    ensures Count(w, 0, n) <= Count(Verdicts(p, ts), 0, n)
  {
    hide Gain, Budget;
    if n > 0 {
      BucketIsBest(p, ts, w, n - 1);
      var v := Verdicts(p, ts);
      if w[n - 1] && !v[n - 1] {
        var i := Tight(p, ts, n - 1);
        BudgetIs(p, ts, i, n - 1);
        assert Count(w, i, n) as real <= Budget(p, ts, i, n - 1);
        assert Count(w, i, n - 1) < Count(v, i, n - 1);
        BucketIsBest(p, ts, w, i);
        CountSplit(w, 0, i, n - 1);
        CountSplit(v, 0, i, n - 1);
      }
    }
  }

  /** What a later request does cannot change an earlier answer. */
  lemma {:induction false} Stable(p: Params, ts: seq<real>, now: real, n: nat)
    requires n < |ts|
    ensures Available(p, ts + [now], n) == Available(p, ts, n) && Left(p, ts + [now], n) == Left(p, ts, n)
  {
    hide Gain;
    if n == 0 {
      assert Available(p, ts + [now], 0) == Available(p, ts, 0);
    } else {
      Stable(p, ts, now, n - 1);
      assert (ts + [now])[n] == ts[n] && (ts + [now])[n - 1] == ts[n - 1];
    }
  }

  lemma Extends(ts: seq<real>, now: real)
    requires Monotone(ts) && forall t :: t in ts ==> t <= now
    ensures Monotone(ts + [now])
  {
    forall i, j | 0 <= i <= j < |ts + [now]|
      ensures (ts + [now])[i] <= (ts + [now])[j]
    {
      if j == |ts| && i < j {
        assert ts[i] in ts;
      }
    }
  }

  // ---- the limiter per source address ----

  type Ip = nat

  datatype Bucket = Bucket(tokens: real, last: real)

  const MAX_BUCKETS: nat := 10_000

  /** How long the clock has run since the bucket was last asked, and what that brings. */
  function Refilled(p: Params, b: Bucket, now: real): real {
    Min(p.cap, b.tokens + Gain(p, b.last, now))
  }

  /** The bucket after these requests; none is as good as one that has filled up. */
  ghost predicate Holds(p: Params, ts: seq<real>, b: Option<Bucket>) {
    match b
    case Some(b) => ts != [] && b == Bucket(Left(p, ts, |ts| - 1), ts[|ts| - 1])
    case None => ts == [] || Left(p, ts, |ts| - 1) == p.cap
  }

  function Spend(tokens: real): real {
    if tokens >= 1.0 then tokens - 1.0 else tokens
  }

  /** What a request asks for and leaves behind, in terms of the time since the last one alone. */
  predicate Answers(p: Params, tokens: real, elapsed: real, ok: bool, left: real) {
    var filled := tokens + elapsed * p.rate;
    && (ok <==> p.cap >= 1.0 && filled >= 1.0)
    && left == (if filled <= p.cap then filled else p.cap) - (if ok then 1.0 else 0.0)
  }

  lemma RefilledAnswers(p: Params, b: Bucket, now: real)
    ensures var tokens := Refilled(p, b, now); Answers(p, b.tokens, now - b.last, tokens >= 1.0, Spend(tokens))
  {
  }

  /** Between two requests the bucket gains `rate` tokens a second, up to its capacity, and a request takes one if there is one. */
  lemma IdleRefills(p: Params, ts: seq<real>, now: real)
    requires ts != []
    ensures var n := |ts|; Answers(p, Left(p, ts, n - 1), now - ts[n - 1], Accepted(p, ts + [now], n), Left(p, ts + [now], n))
  {
    hide Gain, Answers;
    var n := |ts|;
    Stable(p, ts, now, n - 1);
    assert (ts + [now])[n - 1] == ts[n - 1] && (ts + [now])[n] == now;
    var b := Bucket(Left(p, ts, n - 1), ts[n - 1]);
    RefilledAnswers(p, b, now);
    assert Available(p, ts + [now], n) == Refilled(p, b, now);
  }

  lemma FullStays(p: Params, last: real, now: real)
    requires Sensible(p) && last <= now
    ensures Refilled(p, Bucket(p.cap, last), now) == p.cap
  {
    GainNonNegative(p, last, now);
  }

  /** The next answer of a stored or missing bucket is the next answer of its own history. */
  lemma NextAnswer(p: Params, ts: seq<real>, b: Option<Bucket>, now: real)
    requires Sensible(p) && Monotone(ts + [now]) && Holds(p, ts, b)
    ensures var tokens := Refilled(p, if b.Some? then b.value else Bucket(p.cap, now), now);
            && (Accepted(p, ts + [now], |ts|) <==> tokens >= 1.0)
            && Holds(p, ts + [now], Some(Bucket(Spend(tokens), now)))
  {
    hide Gain;
    if ts != [] {
      var last := |ts| - 1;
      Stable(p, ts, now, last);
      assert (ts + [now])[last] == ts[last] && (ts + [now])[|ts|] == now;
      GainNonNegative(p, ts[last], now);
      assert Available(p, ts + [now], |ts|) == Min(p.cap, Left(p, ts, last) + Gain(p, ts[last], now));
    }
    if b.None? {
      GainNonNegative(p, now, now);
    }
    assert (ts + [now])[|ts|] == now;
  }

  /** Only a bucket that cannot hold one token is full right after a request. */
  lemma FullAfterwards(p: Params, ts: seq<real>, n: nat)
    requires Sensible(p) && Monotone(ts) && n < |ts|
    ensures Left(p, ts, n) == p.cap ==> p.cap < 1.0
    ensures Left(p, ts, n) <= p.cap
  {
    LeftNonNegative(p, ts, n);
  }

  /** The prune drops nothing, however idle a bucket is, exactly when the capacity is not zero. */
  lemma PruneKeepsIff(capacity: nat, rate: real, ts: seq<real>, n: nat)
    requires rate >= 0.0 && Monotone(ts) && n < |ts|
    ensures Left(Params(capacity as real, rate), ts, n) < capacity as real <==> capacity >= 1
  {
    FullAfterwards(Params(capacity as real, rate), ts, n);
    LeftNonNegative(Params(capacity as real, rate), ts, n);
  }

  function Stored(buckets: map<Ip, Bucket>, ip: Ip): Option<Bucket> {
    if ip in buckets then Some(buckets[ip]) else None
  }

  /** The bucket is that of these requests, all of them made by now. */
  ghost predicate Tracks(p: Params, ts: seq<real>, b: Option<Bucket>, now: real) {
    Monotone(ts) && (forall t :: t in ts ==> t <= now) && Holds(p, ts, b)
  }

  lemma TracksLater(p: Params, ts: seq<real>, b: Option<Bucket>, now: real, later: real)
    requires Tracks(p, ts, b, now) && now <= later
    ensures Tracks(p, ts, b, later)
  {
  }

  lemma TracksNext(p: Params, ts: seq<real>, b: Option<Bucket>, before: real, now: real)
    requires Sensible(p) && Tracks(p, ts, b, before) && before <= now
    ensures var tokens := Refilled(p, if b.Some? then b.value else Bucket(p.cap, now), now);
            && (Accepted(p, ts + [now], |ts|) <==> tokens >= 1.0)
            && Tracks(p, ts + [now], Some(Bucket(Spend(tokens), now)), now)
  {
    Extends(ts, now);
    NextAnswer(p, ts, b, now);
  }

  lemma Fresh(p: Params, now: real)
    ensures Tracks(p, [], None, now)
  {
  }

  class RateLimiter {
    const p: Params
    var buckets: map<Ip, Bucket>
    ghost var asked: map<Ip, seq<real>>   // every address that ever asked, and when
    ghost var clock: real

    ghost predicate Valid()
      reads this
    {
      Sensible(p) && buckets.Keys <= asked.Keys && forall ip :: ip in asked ==> Tracks(p, asked[ip], Stored(buckets, ip), clock)
    }

    constructor (capacity: nat, refillPerSec: real, ghost start: real)
      requires refillPerSec >= 0.0
      ensures Valid() && p == Params(capacity as real, refillPerSec) && buckets == map[] && asked == map[] && clock == start
    {
      p := Params(capacity as real, refillPerSec);
      buckets := map[];
      asked := map[];
      clock := start;
    }

    /** The requests of one address so far. */
    ghost function Times(ip: Ip): seq<real>
      reads this
    {
      if ip in asked then asked[ip] else []
    }

    /**
     * The answer depends on this address's own requests alone, whatever else has been asked and however often
     * the map has been pruned. A capacity of one token or more never prunes anything.
     */
    method Allow(ip: Option<Ip>, now: real) returns (ok: bool)
      requires Valid() && clock <= now
      modifies this
      ensures Valid()
      ensures ip.None? ==> ok && buckets == old(buckets) && asked == old(asked)
      ensures ip.Some? ==>
                && Times(ip.value) == old(Times(ip.value)) + [now]
                && ok == Accepted(p, Times(ip.value), |Times(ip.value)| - 1)
                && (forall other :: other != ip.value ==> Times(other) == old(Times(other)))
                && (p.cap >= 1.0 ==> buckets.Keys == old(buckets.Keys) + {ip.value})
      ensures ip.Some? ==>
                if ip.value !in old(buckets) then ok <==> p.cap >= 1.0
                else
                  var b := old(buckets)[ip.value];
                  ok <==> p.cap >= 1.0 && b.tokens + (now - b.last) * p.rate >= 1.0
    {
      hide Accepted, Tracks;
      if ip.None? {
        return true;
      }
      if |buckets| >= MAX_BUCKETS {
        Prune();
      }
      ok := Ask(ip.value, now);
    }

    /** The bucket of one address, made full if there is none, is refilled and asked for a token. */
    method Ask(who: Ip, now: real) returns (ok: bool)
      requires Valid() && clock <= now
      modifies this
      ensures Valid() && clock == now
      ensures asked == old(asked)[who := old(Times(who)) + [now]]
      ensures ok == Accepted(p, Times(who), |Times(who)| - 1)
      ensures buckets.Keys == old(buckets.Keys) + {who}
      ensures if who !in old(buckets) then ok <==> p.cap >= 1.0
              else
                var b := old(buckets)[who];
                buckets[who].last == now && Answers(p, b.tokens, now - b.last, ok, buckets[who].tokens)
    {
      hide Accepted, Holds, Monotone, Refilled, Answers;
      ghost var ts := Times(who);
      RefilledAnswers(p, if who in buckets then buckets[who] else Bucket(p.cap, now), now);
      FullStays(p, now, now);
      Fresh(p, clock);
      TracksNext(p, ts, Stored(buckets, who), clock, now);
      forall other | other in asked
        ensures Tracks(p, asked[other], Stored(buckets, other), now)
      {
        TracksLater(p, asked[other], Stored(buckets, other), clock, now);
      }
      var b := if who in buckets then buckets[who] else Bucket(p.cap, now);
      var tokens := Refilled(p, b, now);
      ok := tokens >= 1.0;
      if ok {
        tokens := tokens - 1.0;
      }
      buckets := buckets[who := Bucket(tokens, now)];
      asked := asked[who := ts + [now]];
      clock := now;
    }

    /** `retain(tokens < capacity)`. */
    method Prune()
      requires Valid()
      modifies this`buckets
      ensures Valid()
      ensures p.cap >= 1.0 ==> buckets == old(buckets)
      ensures p.cap < 1.0 ==> forall ip :: ip in buckets ==> buckets[ip].tokens < p.cap
    {
      forall ip | ip in buckets
        ensures Left(p, asked[ip], |asked[ip]| - 1) <= p.cap
        ensures buckets[ip].tokens == p.cap ==> p.cap < 1.0
      {
        FullAfterwards(p, asked[ip], |asked[ip]| - 1);
      }
      buckets := map ip | ip in buckets && buckets[ip].tokens < p.cap :: buckets[ip];
    }
  }

  // ---- the limiter of one session's control frames ----

  class ControlLimiter {
    const p: Params
    var tokens: real
    var last: real
    ghost var times: seq<real>

    ghost predicate Valid()
      reads this
    {
      && Sensible(p) && Monotone(times) && (forall t :: t in times ==> t <= last)
      && if times == [] then tokens == p.cap else Bucket(tokens, last) == Bucket(Left(p, times, |times| - 1), times[|times| - 1])
    }

    constructor (capacity: real, refillPerSec: real, now: real)
      requires capacity >= 0.0 && refillPerSec >= 0.0
      ensures Valid() && p == Params(capacity, refillPerSec) && times == [] && last == now
    {
      p := Params(capacity, refillPerSec);
      tokens := capacity;
      last := now;
      times := [];
    }

    /** It answers like a bucket that is full at the first request, however long after its creation that is. */
    method Allow(now: real) returns (ok: bool)
      requires Valid() && last <= now
      modifies this
      ensures Valid() && times == old(times) + [now] && last == now
      ensures ok == Accepted(p, times, |times| - 1)
      ensures Answers(p, old(tokens), now - old(last), ok, tokens)
    {
      hide Gain, Available, Accepted, Left, Refilled, Answers;
      RefilledAnswers(p, Bucket(tokens, last), now);
      FullStays(p, last, now);
      FullStays(p, now, now);
      Extends(times, now);
      GainNonNegative(p, last, now);
      NextAnswer(p, times, if times == [] then None else Some(Bucket(tokens, last)), now);
      GainNonNegative(p, now, now);
      tokens := Refilled(p, Bucket(tokens, last), now);
      last := now;
      times := times + [now];
      ok := tokens >= 1.0;
      if ok {
        tokens := tokens - 1.0;
      }
    }
  }
}
