/** The fixed-minute request limiter over an expiring key store. */
module MinuteWindow {
  import opened Bytes
  import opened Stamps

  const WINDOW_TTL: int := 120

  /** How much later than `now` a command may reach the store. The caller gives up after 250 ms; a minute is enough. */
  const LAG: int := 60

  // ---- the key store ----

  /** A key without an expiry stays. */
  datatype Entry = Entry(count: int, expiry: Option<int>)

  type Store = map<string, Entry>

  /** What `INCR` answers when it runs at `at`: a key that has expired is gone. */
  function Incr(s: Store, key: string, at: int): int {
    if Alive(s, key, at) then s[key].count + 1 else 1
  }

  predicate Alive(s: Store, key: string, at: int) {
    key in s && (s[key].expiry.None? || at < s[key].expiry.value)
  }

  /** `INCR` alone, when the reply or the `EXPIRE` after it was lost. */
  function HalfBump(s: Store, key: string, at: int): Store {
    s[key := Entry(Incr(s, key, at), if Alive(s, key, at) then s[key].expiry else None)]
  }

  /** `INCR` and then `EXPIRE`. */
  function Bump(s: Store, key: string, at: int): Store {
    s[key := Entry(Incr(s, key, at), Some(at + WINDOW_TTL))]
  }

  // ---- keys ----

  function TunnelKey(account: int, tunnel: string, now: int): string {
    "rl:" + Signed(account, 1) + ":" + tunnel + ":" + MinuteBucket(now)
  }

  function IpKey(account: int, ip: string, now: int): string {
    "rl:" + Signed(account, 1) + ":ip:" + ip + ":" + MinuteBucket(now)
  }

  lemma NoColon(n: int, width: nat)
    requires width > 0
    ensures ':' !in Signed(n, width)
  {
    PadDigits(Abs(n), if n >= 0 then width else width - 1);
  }

  lemma BucketNoColon(now: int)
    ensures ':' !in MinuteBucket(now)
  {
    hide Calendar.Civil, Signed;
    var t := Calendar.Civil(now / DAY);
    var secs := now % DAY;
    NoColon(t.y, 4);
    NoColon(t.m, 2);
    NoColon(t.d, 2);
    NoColon(secs / 3600, 2);
    NoColon(secs % 3600 / 60, 2);
  }

  lemma LongerLeft(a: string, x: string, b: string, y: string)
    requires a + ":" + x == b + ":" + y && |a| < |b|
    ensures ':' in x && ':' in b
  {
    var s := a + ":" + x;
    assert s[|b|] == ':' && s[|b|] == x[|b| - |a| - 1];
    assert s[|a|] == ':' && s[|a|] == b[|a|];
  }

  lemma SameLeft(a: string, x: string, b: string, y: string)
    requires a + ":" + x == b + ":" + y && |a| == |b|
    ensures a == b && x == y
  {
    var s := a + ":" + x;
    assert s[..|a|] == a && s[..|b|] == b && s[|a| + 1..] == x && s[|b| + 1..] == y;
  }

  /** The part after the last colon, or before the first one. */
  lemma SplitAtColon(a: string, x: string, b: string, y: string)
    requires a + ":" + x == b + ":" + y
    requires (':' !in x && ':' !in y) || (':' !in a && ':' !in b)
    ensures a == b && x == y
  {
    if |a| < |b| {
      LongerLeft(a, x, b, y);
    } else if |b| < |a| {
      LongerLeft(b, y, a, x);
    } else {
      SameLeft(a, x, b, y);
    }
  }

  /** Keys of the shape `rl:<account>:<middle>:<minute>`. */
  function Key(account: int, middle: string, now: int): string {
    "rl:" + Signed(account, 1) + ":" + middle + ":" + MinuteBucket(now)
  }

  lemma KeyParts(a: int, s: string, m: int, b: int, t: string, n: int)
    ensures Key(a, s, m) == Key(b, t, n) <==> a == b && s == t && m / 60 == n / 60
  {
    hide Signed, MinuteBucket;
    SameMinuteIff(m, n);
    if Key(a, s, m) == Key(b, t, n) {
      BucketNoColon(m);
      BucketNoColon(n);
      SplitAtColon("rl:" + Signed(a, 1) + ":" + s, MinuteBucket(m), "rl:" + Signed(b, 1) + ":" + t, MinuteBucket(n));
      var x := Signed(a, 1) + ":" + s;
      var y := Signed(b, 1) + ":" + t;
      assert ("rl:" + Signed(a, 1) + ":" + s)[3..] == x && ("rl:" + Signed(b, 1) + ":" + t)[3..] == y;
      NoColon(a, 1);
      NoColon(b, 1);
      SplitAtColon(Signed(a, 1), s, Signed(b, 1), t);
      ShortInjective(a, b);
    }
  }

  /** `{}` of an account id. */
  lemma ShortInjective(a: int, b: int)
    requires Signed(a, 1) == Signed(b, 1)
    ensures a == b
  {
    PadDigits(Abs(a), if a >= 0 then 1 else 0);
    PadDigits(Abs(b), if b >= 0 then 1 else 0);
    ValuePad(Abs(a), if a >= 0 then 1 else 0);
    ValuePad(Abs(b), if b >= 0 then 1 else 0);
    var s, t := Signed(a, 1), Signed(b, 1);
    assert a >= 0 ==> s[0] in s && '0' <= s[0];
    assert b >= 0 ==> t[0] in t && '0' <= t[0];
    assert a < 0 ==> s[0] == '-' && s[1..] == Pad(Dec(-a), 0);
    assert b < 0 ==> t[0] == '-' && t[1..] == Pad(Dec(-b), 0);
  }

  /** The keys spell out account, tunnel or address, and window, with colons between. */
  lemma KeysSpell(account: int, tunnel: string, ip: string, now: int)
    ensures exists a :: Reads(a, account) &&
                        TunnelKey(account, tunnel, now) == "rl:" + a + ":" + tunnel + ":" + MinuteBucket(now) &&
                        IpKey(account, ip, now) == "rl:" + a + ":ip:" + ip + ":" + MinuteBucket(now)
  {
    hide Signed, MinuteBucket, Reads;
    SignedReads(account, 1);
  }

  /** Two requests share a counter exactly when they are about the same thing in the same minute. */
  lemma KeysDistinct(a: int, s: string, m: int, b: int, t: string, n: int)
    ensures TunnelKey(a, s, m) == TunnelKey(b, t, n) <==> a == b && s == t && m / 60 == n / 60
    ensures IpKey(a, s, m) == IpKey(b, t, n) <==> a == b && s == t && m / 60 == n / 60
    ensures TunnelKey(a, s, m) == IpKey(b, t, n) <==> a == b && s == "ip:" + t && m / 60 == n / 60
    ensures ':' !in s ==> TunnelKey(a, s, m) != IpKey(b, t, n)
  {
    hide Signed, MinuteBucket, Key;
    AsKeys(a, s, m);
    AsKeys(b, t, n);
    KeyParts(a, s, m, b, t, n);
    KeyParts(a, "ip:" + s, m, b, "ip:" + t, n);
    KeyParts(a, s, m, b, "ip:" + t, n);
    assert ("ip:" + s)[3..] == s && ("ip:" + t)[3..] == t;
    assert s == "ip:" + t ==> s[2] == ':';
  }

  lemma AsKeys(a: int, s: string, m: int)
    ensures TunnelKey(a, s, m) == Key(a, s, m) && IpKey(a, s, m) == Key(a, "ip:" + s, m)
  {
    hide Signed, MinuteBucket;
    assert "rl:" + Signed(a, 1) + ":ip:" + s == "rl:" + Signed(a, 1) + ":" + ("ip:" + s);
  }

  // ---- the store over a run ----

  /** One increment: made for a request at `now`, executed at `at` by the store's clock; the reply may be lost. */
  datatype Event = Event(key: string, now: int, at: int, heard: bool)

  predicate Timely(e: Event) {
    e.now <= e.at <= e.now + LAG
  }

  /** The key was made at the time of its own request. */
  ghost predicate OwnKey(e: Event) {
    exists account, middle :: e.key == Key(account, middle, e.now)
  }

  /** Every key is made as the limiter makes them, and no increment arrives much too late. */
  ghost predicate WellTimed(events: seq<Event>) {
    OwnKeys(events) && InTime(events)
  }

  ghost predicate OwnKeys(events: seq<Event>) {
    forall n :: 0 <= n < |events| ==> OwnKey(events[n])
  }

  predicate InTime(events: seq<Event>) {
    forall n :: 0 <= n < |events| ==> Timely(events[n])
  }

  /** So the increments of one key are made within one minute. */
  predicate Minutely(events: seq<Event>) {
    InTime(events) &&
    forall m, n :: 0 <= m < |events| && 0 <= n < |events| && events[m].key == events[n].key ==>
      events[m].now / 60 == events[n].now / 60
  }

  lemma LogIsMinutely(events: seq<Event>)
    requires WellTimed(events)
    ensures Minutely(events)
  {
    hide Key;
    forall m, n | 0 <= m < |events| && 0 <= n < |events| && events[m].key == events[n].key
      ensures events[m].now / 60 == events[n].now / 60
    {
      assert OwnKey(events[m]) && OwnKey(events[n]);
      var a, x :| events[m].key == Key(a, x, events[m].now);
      var b, y :| events[n].key == Key(b, y, events[n].now);
      KeyParts(a, x, events[m].now, b, y, events[n].now);
    }
  }

  function Executed(s: Store, e: Event): Store {
    if e.heard then Bump(s, e.key, e.at) else HalfBump(s, e.key, e.at)
  }

  function After(events: seq<Event>, n: nat): Store
    requires n <= |events|
  {
    if n == 0 then map[] else Executed(After(events, n - 1), events[n - 1])
  }

  /** What the store answers to increment `n`. */
  function Reply(events: seq<Event>, n: nat): int
    requires n < |events|
  {
    Incr(After(events, n), events[n].key, events[n].at)
  }

  function Earlier(events: seq<Event>, key: string, n: nat): nat
    requires n <= |events|
  {
    if n == 0 then 0 else Earlier(events, key, n - 1) + if events[n - 1].key == key then 1 else 0
  }

  /** As long as a key's minute lasts its counter is there, and has missed nothing. */
  lemma {:induction false} StoreCounts(events: seq<Event>, n: nat, e: Event)
    requires Minutely(events) && n <= |events| && Timely(e)
    requires forall m :: 0 <= m < n && events[m].key == e.key ==> events[m].now / 60 == e.now / 60
    ensures var s := After(events, n); Earlier(events, e.key, n) > 0 ==>
              Alive(s, e.key, e.at) && s[e.key].count == Earlier(events, e.key, n)
    ensures e.key !in After(events, n) <==> Earlier(events, e.key, n) == 0
    decreases n
  {
    if n > 0 {
      StoreCounts(events, n - 1, e);
      var last := events[n - 1];
      if last.key == e.key {
        StoreCounts(events, n - 1, last);
      }
    }
  }

  /** An increment answers how many there have been: no counter ever expires inside its own minute. */
  lemma ReplyIsCount(events: seq<Event>, n: nat)
    requires WellTimed(events) && n < |events|
    ensures Reply(events, n) == Earlier(events, events[n].key, n) + 1
  {
    LogIsMinutely(events);
    StoreCounts(events, n, events[n]);
  }

  lemma {:induction false} EarlierGrows(events: seq<Event>, key: string, m: nat, n: nat)
    requires m < n <= |events| && events[m].key == key
    ensures Earlier(events, key, m) < Earlier(events, key, n)
    decreases n
  {
    if m < n - 1 {
      EarlierGrows(events, key, m, n - 1);
    }
  }

  // ---- requests ----

  /** A request whose two increments were answered, known by the index of its tunnel increment, and its limit. */
  datatype Ask = Ask(account: int, tunnel: string, ip: string, rpm: nat, now: int, ipEvent: nat)

  type Asks = map<nat, Ask>

  /** Each request has made its two increments. */
  predicate Recorded(events: seq<Event>, asks: Asks) {
    && (forall n :: n in asks ==>
          && n < |events| && asks[n].ipEvent < |events|
          && events[n].key == TunnelKey(asks[n].account, asks[n].tunnel, asks[n].now) && events[n].now == asks[n].now
          && events[asks[n].ipEvent].key == IpKey(asks[n].account, asks[n].ip, asks[n].now) && events[asks[n].ipEvent].now == asks[n].now)
    && (forall m, n :: m in asks && n in asks && asks[m].ipEvent == asks[n].ipEvent ==> m == n)
  }

  predicate Exceeds(count: int, rpm: int) {
    rpm > 0 && count > rpm
  }

  predicate Passed(events: seq<Event>, asks: Asks, n: nat)
    requires Recorded(events, asks) && n in asks
  {
    !Exceeds(Reply(events, n), asks[n].rpm) && !Exceeds(Reply(events, asks[n].ipEvent), asks[n].rpm)
  }

  /** A request passes exactly when fewer than `rpm` came before it, in its minute, both for its tunnel and from its address. */
  lemma PassedIff(events: seq<Event>, asks: Asks, n: nat)
    requires WellTimed(events) && Recorded(events, asks) && n in asks && asks[n].rpm > 0
    ensures Passed(events, asks, n) <==>
            Earlier(events, events[n].key, n) < asks[n].rpm &&
            Earlier(events, events[asks[n].ipEvent].key, asks[n].ipEvent) < asks[n].rpm
  {
    ReplyIsCount(events, n);
    ReplyIsCount(events, asks[n].ipEvent);
  }

  lemma RecordedStays(events: seq<Event>, more: seq<Event>, asks: Asks)
    requires Recorded(events, asks)
    ensures Recorded(events + more, asks)
  {
    hide TunnelKey, IpKey;
  }

  /** Increments that come later change no answer that was given. */
  lemma PassedStays(events: seq<Event>, more: seq<Event>, asks: Asks, n: nat)
    requires Recorded(events, asks) && n in asks
    ensures Recorded(events + more, asks) && (Passed(events + more, asks, n) <==> Passed(events, asks, n))
  {
    hide TunnelKey, IpKey, Incr;
    RecordedStays(events, more, asks);
    AfterStays(events, more, n);
    AfterStays(events, more, asks[n].ipEvent);
  }

  lemma {:induction false} AfterStays(events: seq<Event>, more: seq<Event>, n: nat)
    requires n <= |events|
    ensures After(events + more, n) == After(events, n)
    decreases n
  {
    hide Executed;
    if n > 0 {
      AfterStays(events, more, n - 1);
    }
  }

  // ---- counting ----

  function UpTo(n: nat): (s: set<int>)
    ensures forall i :: i in s <==> 1 <= i <= n
    ensures |s| == n
  {
    if n == 0 then {} else UpTo(n - 1) + {n as int}
  }

  lemma {:induction false} Pigeons(s: set<nat>, f: map<nat, int>, holes: set<int>)
    requires s <= f.Keys && (forall x :: x in s ==> f[x] in holes)
    requires forall x, y :: x in s && y in s && f[x] == f[y] ==> x == y
    ensures |s| <= |holes|
    decreases |s|
  {
    if s != {} {
      var x :| x in s;
      Pigeons(s - {x}, f, holes - {f[x]});
    }
  }

  /** The increments of one key that stay within the limit. */
  lemma WithinLimit(events: seq<Event>, key: string, rpm: nat, s: set<nat>)
    requires WellTimed(events)
    requires forall n :: n in s ==> n < |events| && events[n].key == key && Reply(events, n) <= rpm
    ensures |s| <= rpm
  {
    var f: map<nat, int> := map n | n in s :: Reply(events, n);
    forall x | x in s
      ensures f[x] in UpTo(rpm)
    {
      ReplyIsCount(events, x);
    }
    forall x, y | x in s && y in s && f[x] == f[y]
      ensures x == y
    {
      ReplyIsCount(events, x);
      ReplyIsCount(events, y);
      if x < y {
        EarlierGrows(events, key, x, y);
      } else if y < x {
        EarlierGrows(events, key, y, x);
      }
    }
    Pigeons(s, f, UpTo(rpm));
  }

  /** Requests that passed, for one tunnel, in one minute; none of them was asked under a higher limit. */
  predicate PassedForTunnel(events: seq<Event>, asks: Asks, rpm: nat, account: int, tunnel: string, minute: int, s: set<nat>)
    requires Recorded(events, asks)
  {
    forall n :: n in s ==> n in asks && asks[n].account == account && asks[n].tunnel == tunnel && asks[n].now / 60 == minute &&
                           Passed(events, asks, n) && 0 < asks[n].rpm <= rpm
  }

  lemma PassedForTunnelBound(events: seq<Event>, asks: Asks, rpm: nat, account: int, tunnel: string, minute: int, s: set<nat>)
    requires WellTimed(events) && Recorded(events, asks)
    requires PassedForTunnel(events, asks, rpm, account, tunnel, minute, s)
    ensures |s| <= rpm
  {
    hide TunnelKey, IpKey, Reply;
    var key := TunnelKey(account, tunnel, minute * 60);
    forall n | n in s
      ensures events[n].key == key && Reply(events, n) <= rpm
    {
      KeysDistinct(account, tunnel, asks[n].now, account, tunnel, minute * 60);
    }
    WithinLimit(events, key, rpm, s);
  }

  predicate PassedFromIp(events: seq<Event>, asks: Asks, rpm: nat, account: int, ip: string, minute: int, s: set<nat>)
    requires Recorded(events, asks)
  {
    forall n :: n in s ==> n in asks && asks[n].account == account && asks[n].ip == ip && asks[n].now / 60 == minute &&
                           Passed(events, asks, n) && 0 < asks[n].rpm <= rpm
  }

  lemma PassedFromIpBound(events: seq<Event>, asks: Asks, rpm: nat, account: int, ip: string, minute: int, s: set<nat>)
    requires WellTimed(events) && Recorded(events, asks)
    requires PassedFromIp(events, asks, rpm, account, ip, minute, s)
    ensures |s| <= rpm
  {
    hide TunnelKey, IpKey, Reply, WellTimed, Passed;
    var t := set n | n in s :: asks[n].ipEvent;
    IpEvents(events, asks, rpm, account, ip, minute, s, t);
    var f: map<nat, int> := map n | n in s :: asks[n].ipEvent as int;
    var holes := set e: nat | e in t :: e as int;
    SameSize(t, holes);
    forall x | x in s
      ensures f[x] in holes
    {
      assert asks[x].ipEvent in t;
    }
    Pigeons(s, f, holes);
  }

  lemma IpEvents(events: seq<Event>, asks: Asks, rpm: nat, account: int, ip: string, minute: int, s: set<nat>, t: set<nat>)
    requires WellTimed(events) && Recorded(events, asks)
    requires PassedFromIp(events, asks, rpm, account, ip, minute, s) && t == set n | n in s :: asks[n].ipEvent
    ensures |t| <= rpm
  {
    hide TunnelKey, IpKey, Reply, WellTimed;
    var key := IpKey(account, ip, minute * 60);
    forall e | e in t
      ensures e < |events| && events[e].key == key && Reply(events, e) <= rpm
    {
      var n :| n in s && asks[n].ipEvent == e;
      KeysDistinct(account, ip, asks[n].now, account, ip, minute * 60);
    }
    WithinLimit(events, key, rpm, t);
  }

  lemma SameSize(t: set<nat>, holes: set<int>)
    requires holes == set e: nat | e in t :: e as int
    ensures |holes| == |t|
  {
    assert forall e :: e in holes <==> e in t;
    assert holes == t;
  }

  // ---- Retry-After ----

  function RetryAfter(now: int): int {
    var left := 60 - now % 60;
    if left >= 1 then left else 1
  }

  /** Waiting that long reaches the first second of the next minute, no earlier and no later. */
  lemma RetryReachesNextWindow(now: int)
    ensures var then' := now + RetryAfter(now);
            && 1 <= RetryAfter(now) <= 60 && then' % 60 == 0 && then' / 60 == now / 60 + 1
            && MinuteBucket(then') != MinuteBucket(now)
            && forall t :: now <= t < then' ==> MinuteBucket(t) == MinuteBucket(now)
  {
    hide MinuteBucket;
    SameMinuteIff(now + RetryAfter(now), now);
    forall t | now <= t < now + RetryAfter(now)
      ensures MinuteBucket(t) == MinuteBucket(now)
    {
      SameMinuteIff(t, now);
    }
  }

  /** Whoever has waited is in a later minute, and so is everything of that minute. */
  lemma LaterMinute(t: int, later: int, same: int)
    requires later >= t + RetryAfter(t) && same / 60 == later / 60
    ensures later / 60 != t / 60 && same >= t + RetryAfter(t)
  {
  }

  /** After that wait only requests made since the new minute began are counted. */
  lemma FreshWindow(events: seq<Event>, asks: Asks, m: nat, n: nat)
    requires WellTimed(events) && Recorded(events, asks) && m in asks && n in asks
    requires asks[n].now >= asks[m].now + RetryAfter(asks[m].now)
    ensures events[n].key != events[m].key
    ensures forall k :: 0 <= k < |events| && events[k].key == events[n].key ==> events[k].now >= asks[m].now + RetryAfter(asks[m].now)
  {
    hide TunnelKey, IpKey, MinuteBucket, OwnKeys, InTime, RetryAfter;
    LogIsMinutely(events);
    KeysDistinct(asks[n].account, asks[n].tunnel, asks[n].now, asks[m].account, asks[m].tunnel, asks[m].now);
    LaterMinute(asks[m].now, asks[n].now, asks[n].now);
    forall k | 0 <= k < |events| && events[k].key == events[n].key
      ensures events[k].now >= asks[m].now + RetryAfter(asks[m].now)
    {
      assert events[k].now / 60 == events[n].now / 60;
      LaterMinute(asks[m].now, asks[n].now, events[k].now);
    }
  }

  // ---- the limiter itself ----

  class HotCounter {
    var keys: Store
    ghost var events: seq<Event>

    /** The store is what the increments so far have made of it. */
    ghost predicate Valid()
      reads this
    {
      keys == After(events, |events|)
    }

    constructor ()
      ensures Valid() && events == []
    {
      keys, events := map[], [];
    }

    /** Bounded by a timeout: `None` when the store did not answer, whether or not it has counted. */
    method IncrExpire(key: string, ghost now: int, at: int, up: bool, counted: bool) returns (n: Option<int>)
      requires Valid()
      modifies this
      ensures Valid()
      ensures events == if up || counted then old(events) + [Event(key, now, at, up)] else old(events)
      ensures if up then n == Some(Reply(events, |events| - 1)) else n == None
      ensures up ==>
                && key in keys && keys[key].expiry == Some(at + 120) && n == Some(keys[key].count)
                && keys[key].count == if key in old(keys) && (old(keys)[key].expiry.None? || at < old(keys)[key].expiry.value)
                                      then old(keys)[key].count + 1 else 1
      ensures forall other :: other in old(keys) && other != key ==> other in keys && keys[other] == old(keys)[other]
    {
      if !up && !counted {
        return None;
      }
      ghost var e := Event(key, now, at, up);
      AfterStays(events, [e], |events|);
      events := events + [e];
      var alive := Alive(keys, key, at);
      var count := if alive then keys[key].count + 1 else 1;
      keys := keys[key := Entry(count, if alive then keys[key].expiry else None)];
      if !up {
        return None;
      }
      keys := keys[key := keys[key].(expiry := Some(at + WINDOW_TTL))];
      return Some(count);
    }
  }

  datatype Outcome = Allowed | Limited(retryAfterSecs: int)

  /** How one command on the store goes: when it runs there, and whether the caller hears of it. */
  datatype Trip = Trip(at: int, up: bool, counted: bool)

  /** What a request leaves in the log: two increments, the second only if the first was answered. */
  function Trail(account: int, tunnel: string, ip: string, now: int, first: Trip, second: Trip): seq<Event> {
    var e := Event(TunnelKey(account, tunnel, now), now, first.at, first.up);
    var f := Event(IpKey(account, ip, now), now, second.at, second.up);
    if !first.up then (if first.counted then [e] else [])
    else [e] + if second.up || second.counted then [f] else []
  }

  /** Of the requests the store has answered, exactly those that pass by their counts were let through. */
  predicate Answered(events: seq<Event>, asks: Asks, allowed: set<nat>) {
    Recorded(events, asks) && forall n :: n in asks ==> (n in allowed <==> Passed(events, asks, n))
  }

  lemma KeepAnswered(events: seq<Event>, more: seq<Event>, asks: Asks, allowed: set<nat>)
    requires Answered(events, asks, allowed)
    ensures Answered(events + more, asks, allowed)
  {
    hide Recorded, Passed;
    RecordedStays(events, more, asks);
    forall n | n in asks
      ensures Passed(events + more, asks, n) <==> Passed(events, asks, n)
    {
      PassedStays(events, more, asks, n);
    }
  }

  /** The log has grown by a request's two increments. */
  predicate Grown(events: seq<Event>, log: seq<Event>, ask: Ask) {
    var n := |events|;
    && |log| == n + 2 && log[..n] == events && ask.ipEvent == n + 1 && log[n].now == log[n + 1].now == ask.now
    && log[n].key == TunnelKey(ask.account, ask.tunnel, ask.now) && log[n + 1].key == IpKey(ask.account, ask.ip, ask.now)
  }

  lemma RecordedGrown(events: seq<Event>, log: seq<Event>, ask: Ask, asks: Asks, allowed: set<nat>)
    requires Answered(events, asks, allowed) && Grown(events, log, ask)
    ensures Recorded(log, asks[|events| := ask])
  {
    hide TunnelKey, IpKey, Passed;
    assert log == events + log[|events|..];
    RecordedStays(events, log[|events|..], asks);
  }

  /** Then the request is one more that was answered. */
  lemma AddAnswer(events: seq<Event>, log: seq<Event>, ask: Ask, asks: Asks, asks': Asks, allowed: set<nat>, n: nat, passes: bool)
    requires n in asks' && Recorded(log, asks') && (passes <==> Passed(log, asks', n))
    requires n == |events| && asks' == asks[n := ask]
    requires Answered(events, asks, allowed) && Grown(events, log, ask)
    ensures Answered(log, asks', if passes then allowed + {n} else allowed - {n})
  {
    hide TunnelKey, IpKey, Recorded, Grown, Reply;
    assert log == events + log[n..] by {
      Prefix(events, log, ask);
    }
    KeepAnswered(events, log[n..], asks, allowed);
    forall m | m in asks
      ensures asks'[m] == asks[m] && m != n && (Passed(log, asks', m) <==> Passed(log, asks, m))
    {
      Below(events, asks, m);
    }
  }

  lemma Prefix(events: seq<Event>, log: seq<Event>, ask: Ask)
    requires Grown(events, log, ask)
    ensures |events| <= |log| && log == events + log[|events|..]
  {
    hide TunnelKey, IpKey;
  }

  lemma Below(events: seq<Event>, asks: Asks, m: nat)
    requires Recorded(events, asks) && m in asks
    ensures m < |events|
  {
    hide TunnelKey, IpKey;
  }

  /** The limiter's own account of its log: its own keys, its requests' increments, and whom it let through. */
  ghost predicate Kept(events: seq<Event>, asks: Asks, allowed: set<nat>) {
    OwnKeys(events) && Answered(events, asks, allowed)
  }

  lemma TrailKeys(events: seq<Event>, account: int, tunnel: string, ip: string, now: int, first: Trip, second: Trip)
    requires OwnKeys(events)
    ensures OwnKeys(events + Trail(account, tunnel, ip, now, first, second))
  {
    hide TunnelKey, IpKey, Key;
    AsKeys(account, tunnel, now);
    AsKeys(account, ip, now);
    forall e | e in Trail(account, tunnel, ip, now, first, second)
      ensures OwnKey(e)
    {
      assert e.key == Key(account, tunnel, e.now) || e.key == Key(account, "ip:" + ip, e.now);
    }
    var log := events + Trail(account, tunnel, ip, now, first, second);
    forall n | 0 <= n < |log|
      ensures OwnKey(log[n])
    {
      assert n >= |events| ==> log[n] in Trail(account, tunnel, ip, now, first, second);
    }
  }

  // ---- how many are let through ----

  /** The requests for a tunnel that were made from `from` on and before `to`, under a limit of at most `rpm`, and let through. */
  function ToTunnel(asks: Asks, allowed: set<nat>, rpm: nat, account: int, tunnel: string, from: int, to: int): set<nat> {
    set n | n in asks && n in allowed && asks[n].account == account && asks[n].tunnel == tunnel && from <= asks[n].now < to &&
            0 < asks[n].rpm <= rpm
  }

  function FromIp(asks: Asks, allowed: set<nat>, rpm: nat, account: int, ip: string, from: int, to: int): set<nat> {
    set n | n in asks && n in allowed && asks[n].account == account && asks[n].ip == ip && from <= asks[n].now < to &&
            0 < asks[n].rpm <= rpm
  }

  /** At most `rpm` requests a minute are let through to one tunnel. */
  lemma TunnelPerMinute(events: seq<Event>, asks: Asks, allowed: set<nat>, rpm: nat, account: int, tunnel: string, minute: int)
    requires Kept(events, asks, allowed) && InTime(events)
    ensures |ToTunnel(asks, allowed, rpm, account, tunnel, 60 * minute, 60 * minute + 60)| <= rpm
  {
    hide OwnKeys, InTime, Passed, Recorded;
    PassedForTunnelBound(events, asks, rpm, account, tunnel, minute,
                         ToTunnel(asks, allowed, rpm, account, tunnel, 60 * minute, 60 * minute + 60));
  }

  /** And from one address to the tunnels of one account. */
  lemma IpPerMinute(events: seq<Event>, asks: Asks, allowed: set<nat>, rpm: nat, account: int, ip: string, minute: int)
    requires Kept(events, asks, allowed) && InTime(events)
    ensures |FromIp(asks, allowed, rpm, account, ip, 60 * minute, 60 * minute + 60)| <= rpm
  {
    hide OwnKeys, InTime, Passed, Recorded;
    PassedFromIpBound(events, asks, rpm, account, ip, minute,
                      FromIp(asks, allowed, rpm, account, ip, 60 * minute, 60 * minute + 60));
  }

  lemma Union(a: set<nat>, b: set<nat>, c: set<nat>)
    requires a <= b + c
    ensures |a| <= |b| + |c|
  {
    var d := b + (c - b);
    assert d == b + c && |d| == |b| + |c - b|;
    assert c == (c - b) + (c * b);
    assert d == a + (d - a);
  }

  /** Sixty seconds touch at most two minutes, so at most twice `rpm` are let through to one tunnel in them. */
  lemma TunnelPerSixtySeconds(events: seq<Event>, asks: Asks, allowed: set<nat>, rpm: nat, account: int, tunnel: string, from: int)
    requires Kept(events, asks, allowed) && InTime(events)
    ensures |ToTunnel(asks, allowed, rpm, account, tunnel, from, from + 60)| <= 2 * rpm
  {
    hide Kept, InTime;
    var m := from / 60;
    TunnelPerMinute(events, asks, allowed, rpm, account, tunnel, m);
    TunnelPerMinute(events, asks, allowed, rpm, account, tunnel, m + 1);
    Union(ToTunnel(asks, allowed, rpm, account, tunnel, from, from + 60),
          ToTunnel(asks, allowed, rpm, account, tunnel, 60 * m, 60 * m + 60),
          ToTunnel(asks, allowed, rpm, account, tunnel, 60 * (m + 1), 60 * (m + 1) + 60));
  }

  /** And from one address. */
  lemma IpPerSixtySeconds(events: seq<Event>, asks: Asks, allowed: set<nat>, rpm: nat, account: int, ip: string, from: int)
    requires Kept(events, asks, allowed) && InTime(events)
    ensures |FromIp(asks, allowed, rpm, account, ip, from, from + 60)| <= 2 * rpm
  {
    hide Kept, InTime;
    var m := from / 60;
    IpPerMinute(events, asks, allowed, rpm, account, ip, m);
    IpPerMinute(events, asks, allowed, rpm, account, ip, m + 1);
    Union(FromIp(asks, allowed, rpm, account, ip, from, from + 60),
          FromIp(asks, allowed, rpm, account, ip, 60 * m, 60 * m + 60),
          FromIp(asks, allowed, rpm, account, ip, 60 * (m + 1), 60 * (m + 1) + 60));
  }

  class RateLimiter {
    const hot: HotCounter
    ghost var asks: Asks
    ghost var allowed: set<nat>

    ghost predicate Valid()
      reads this, hot
    {
      hot.Valid() && Kept(hot.events, asks, allowed)
    }

    constructor (hot: HotCounter)
      requires hot.Valid() && OwnKeys(hot.events)
      ensures Valid() && this.hot == hot && asks == map[]
    {
      this.hot := hot;
      asks, allowed := map[], {};
    }

    /** One request: two increments, tunnel first; a store that fails lets it through. */
    method Check(account: int, tunnel: string, ip: string, rpm: nat, now: int, first: Trip, second: Trip) returns (r: Outcome)
      requires Valid()
      modifies this, hot
      ensures Valid()
      ensures hot.events == old(hot.events) + if rpm == 0 then [] else Trail(account, tunnel, ip, now, first, second)
      ensures rpm == 0 || !(first.up && second.up) ==> r == Allowed && asks == old(asks) && allowed == old(allowed)
      ensures rpm > 0 && first.up && second.up ==>
                var n := |old(hot.events)|;
                && asks == old(asks)[n := Ask(account, tunnel, ip, rpm, now, n + 1)]
                && allowed == (if r == Allowed then old(allowed) + {n} else old(allowed) - {n})
                && (r == Allowed <==> Passed(hot.events, asks, n))
                && (r != Allowed ==> r == Limited(RetryAfter(now)))
    {
      hide TunnelKey, IpKey, HotCounter.Valid, After, Answered, Recorded, OwnKeys;
      if rpm == 0 {
        return Allowed;
      }
      ghost var before := hot.events;
      TrailKeys(before, account, tunnel, ip, now, first, second);
      ghost var n := |before|;
      ghost var ask := Ask(account, tunnel, ip, rpm, now, n + 1);
      var tunnelCount := hot.IncrExpire(TunnelKey(account, tunnel, now), now, first.at, first.up, first.counted);
      if tunnelCount.None? {
        KeepAnswered(before, Trail(account, tunnel, ip, now, first, second), asks, allowed);
        return Allowed;
      }
      var ipCount := hot.IncrExpire(IpKey(account, ip, now), now, second.at, second.up, second.counted);
      if ipCount.None? {
        assert hot.events == before + Trail(account, tunnel, ip, now, first, second);
        KeepAnswered(before, Trail(account, tunnel, ip, now, first, second), asks, allowed);
        return Allowed;
      }
      assert hot.events == before + Trail(account, tunnel, ip, now, first, second);
      assert Grown(before, hot.events, ask);
      RecordedGrown(before, hot.events, ask, asks, allowed);
      AddAnswer(before, hot.events, ask, asks, asks[n := ask], allowed, n, Passed(hot.events, asks[n := ask], n));
      AfterStays(before + [hot.events[n]], [hot.events[n + 1]], n);
      asks := asks[n := ask];
      if Exceeds(tunnelCount.value, rpm) || Exceeds(ipCount.value, rpm) {
        allowed := allowed - {n};
        return Limited(RetryAfter(now));
      }
      allowed := allowed + {n};
      return Allowed;
    }
  }
}
