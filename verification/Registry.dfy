/**
 * `allocate` under concurrency: a count, a check, then an insert, with other calls and removals in between. Both
 * counts visit the map shard by shard, so sessions can come and go while they are being counted.
 */
module RegistryRace {
  type Positive = n: nat | 0 < n witness 1

  /** One call: not under way, counting, or past both checks. */
  datatype Phase =
    | Idle
    | Counting(
        token: string,
        ofToken: bool,       // the token's sessions, or all
        visited: nat,        // how many shards
        count: nat,
        known: set<string>   // counted, or there since the count began and still to be counted (history)
      )
    | Through(token: string)

  datatype State = State(
    max: nat,
    tokenMax: string -> nat,         // 0 = unlimited
    shards: Positive,
    hash: string -> nat,
    live: map<string, string>,       // slug to token
    calls: map<nat, Phase>
  )

  datatype Step =
    | Ask(c: nat, token: string)
    | Look(c: nat)                                // count one more shard
    | Decide(c: nat)
    | Insert(c: nat, slug: string, again: bool)   // whether a taken slug is followed by another try
    | Remove(slug: string)

  function ShardOf(s: State, slug: string): nat {
    s.hash(slug) % s.shards
  }

  function OfToken(live: map<string, string>, token: string): set<string> {
    set slug | slug in live && live[slug] == token
  }

  /** The sessions a count is about. */
  function Counted(live: map<string, string>, token: string, ofToken: bool): set<string> {
    if ofToken then OfToken(live, token) else live.Keys
  }

  function InShard(s: State, slugs: set<string>, j: nat): set<string> {
    set slug | slug in slugs && ShardOf(s, slug) == j
  }

  predicate Enabled(s: State, a: Step) {
    match a
    case Ask(c, _) => c in s.calls && s.calls[c].Idle?
    case Look(c) => c in s.calls && s.calls[c].Counting? && s.calls[c].visited < s.shards
    case Decide(c) => c in s.calls && s.calls[c].Counting? && s.calls[c].visited == s.shards
    case Insert(c, _, _) => c in s.calls && s.calls[c].Through?
    case Remove(_) => true
  }

  function Begin(s: State, token: string, ofToken: bool): Phase {
    Counting(token, ofToken, 0, 0, Counted(s.live, token, ofToken))
  }

  /** What the call does when it has counted. */
  function Verdict(s: State, p: Phase): Phase
    requires p.Counting?
  {
    if p.count >= (if p.ofToken then s.tokenMax(p.token) else s.max) then Idle
    else if !p.ofToken && s.tokenMax(p.token) > 0 then Begin(s, p.token, true)
    else Through(p.token)
  }

  /** A session that is gone before its shard is visited will not be counted. */
  function Without(s: State, p: Phase, slug: string): Phase {
    if p.Counting? && ShardOf(s, slug) >= p.visited then p.(known := p.known - {slug}) else p
  }

  function Apply(s: State, a: Step): State
    requires Enabled(s, a)
  {
    match a
    case Ask(c, token) => s.(calls := s.calls[c := Begin(s, token, false)])
    case Look(c) =>
      var p := s.calls[c];
      var here := InShard(s, Counted(s.live, p.token, p.ofToken), p.visited);
      s.(calls := s.calls[c := p.(visited := p.visited + 1, count := p.count + |here|)])
    case Decide(c) => s.(calls := s.calls[c := Verdict(s, s.calls[c])])
    case Insert(c, slug, again) =>
      if slug in s.live then (if again then s else s.(calls := s.calls[c := Idle]))
      else s.(live := s.live[slug := s.calls[c].token], calls := s.calls[c := Idle])
    case Remove(slug) =>
      s.(live := s.live - {slug}, calls := map c | c in s.calls :: Without(s, s.calls[c], slug))
  }

  /** A slug that is in use is never taken over: the call draws another one or gives up, and no session changes. */
  lemma NeverTakesOver(s: State, c: nat, slug: string, again: bool)
    requires Enabled(s, Insert(c, slug, again))
    ensures var e := Apply(s, Insert(c, slug, again));
            && (forall other :: other in s.live ==> other in e.live && e.live[other] == s.live[other])
            && slug in e.live && e.live.Keys == s.live.Keys + {slug}
            && (slug !in s.live ==> e.live[slug] == s.calls[c].token)
            && (e.calls[c].Idle? <==> slug !in s.live || !again)
            && (e.calls[c].Through? <==> slug in s.live && again)
  {
  }

  // ---- a count is never below what was there all the time ----

  function Visited(s: State, p: Phase): set<string>
    requires p.Counting?
  {
    set slug | slug in p.known && ShardOf(s, slug) < p.visited
  }

  predicate Honest(s: State, p: Phase) {
    p.Counting? ==>
      && p.visited <= s.shards && |Visited(s, p)| <= p.count
      && forall slug :: slug in p.known && ShardOf(s, slug) >= p.visited ==> slug in Counted(s.live, p.token, p.ofToken)
  }

  predicate AllHonest(s: State) {
    forall c :: c in s.calls ==> Honest(s, s.calls[c])
  }

  lemma Subset<T>(a: set<T>, b: set<T>)
    requires a <= b
    ensures |a| <= |b|
  {
    assert b == a + (b - a);
  }

  /** Visiting a shard counts at least what was known to be in it. */
  lemma LookCounts(s: State, p: Phase)
    requires p.Counting? && Honest(s, p)
    ensures var here := InShard(s, Counted(s.live, p.token, p.ofToken), p.visited);
            |Visited(s, p.(visited := p.visited + 1))| <= p.count + |here|
  {
    hide Counted, ShardOf;
    var here := InShard(s, Counted(s.live, p.token, p.ofToken), p.visited);
    var mine := InShard(s, p.known, p.visited);
    Subset(mine, here);
    assert Visited(s, p.(visited := p.visited + 1)) == Visited(s, p) + mine;
  }

  lemma LookHonest(s: State, c: nat)
    requires Enabled(s, Look(c)) && Honest(s, s.calls[c])
    ensures Honest(Apply(s, Look(c)), Apply(s, Look(c)).calls[c])
  {
    hide Counted, InShard;
    LookCounts(s, s.calls[c]);
    var s' := Apply(s, Look(c));
    assert Visited(s', s'.calls[c]) == Visited(s, s'.calls[c]);
  }

  lemma WithoutHonest(s: State, slug: string, p: Phase)
    requires Honest(s, p)
    ensures Honest(Apply(s, Remove(slug)), Without(s, p, slug))
  {
    if p.Counting? {
      Subset(Visited(Apply(s, Remove(slug)), Without(s, p, slug)), Visited(s, p));
    }
  }

  lemma BeginHonest(s: State, token: string, ofToken: bool)
    ensures Honest(s, Begin(s, token, ofToken))
  {
    assert Visited(s, Begin(s, token, ofToken)) == {};
  }

  /** The state of another call stays honest when nothing is removed. */
  lemma StaysHonest(s: State, s': State, p: Phase)
    requires Honest(s, p) && s'.shards == s.shards && s'.hash == s.hash
    requires forall slug :: slug in s.live ==> slug in s'.live && s'.live[slug] == s.live[slug]
    ensures Honest(s', p)
  {
    if p.Counting? {
      assert Visited(s', p) == Visited(s, p);
    }
  }

  lemma KeepHonest(s: State, a: Step)
    requires AllHonest(s) && Enabled(s, a)
    ensures AllHonest(Apply(s, a))
  {
    hide Honest, Without, InShard;
    var s' := Apply(s, a);
    forall c | c in s'.calls
      ensures Honest(s', s'.calls[c])
    {
      assert c in s.calls;
      match a {
        case Remove(slug) => WithoutHonest(s, slug, s.calls[c]);
        case Look(d) =>
          if d == c {
            LookHonest(s, c);
          } else {
            StaysHonest(s, s', s.calls[c]);
          }
        case _ =>
          StaysHonest(s, s', s.calls[c]);
          NoCount(s');
          if s'.calls[c].Counting? && s'.calls[c] != s.calls[c] {
            BeginHonest(s', s'.calls[c].token, s'.calls[c].ofToken);
          }
      }
    }
  }

  lemma NoCount(s: State)
    ensures Honest(s, Idle) && forall token :: Honest(s, Through(token))
  {
  }

  lemma HonestAtLast(s: State, c: nat)
    requires Enabled(s, Decide(c)) && Honest(s, s.calls[c])
    ensures |s.calls[c].known| <= s.calls[c].count
  {
    assert Visited(s, s.calls[c]) == s.calls[c].known;
  }

  // ---- a gate: calls count, pass below a cap, and then add one to what is counted ----

  predicate Low(counting: map<nat, set<string>>, group: set<nat>, m: nat) {
    group <= counting.Keys && forall c :: c in group ==> |counting[c]| <= m
  }

  /**
   * `live` is what is counted, `passed` the calls that may add to it, `counting` what each call that still counts
   * must at least come to. Calls that can only come to more than `m` are no danger to a bound of `m + k`.
   */
  ghost predicate Gate(cap: Positive, live: set<string>, passed: set<nat>, counting: map<nat, set<string>>, k: nat) {
    |passed| + |counting.Keys| <= k &&
    forall group, m: nat :: Low(counting, group, m) && m >= cap - 1 ==> |live| + |passed| + |group| <= m + k
  }

  lemma GateBounds(cap: Positive, live: set<string>, passed: set<nat>, counting: map<nat, set<string>>, k: nat)
    requires Gate(cap, live, passed, counting, k)
    ensures |live| <= cap - 1 + k
  {
    assert Low(counting, {}, cap - 1);
  }

  lemma GateEnter(cap: Positive, live: set<string>, passed: set<nat>, counting: map<nat, set<string>>, k: nat, c: nat)
    requires Gate(cap, live, passed, counting, k) && c !in counting && |passed| + |counting.Keys| < k
    ensures Gate(cap, live, passed, counting[c := live], k)
  {
    var counting' := counting[c := live];
    assert counting'.Keys == counting.Keys + {c};
    forall group, m: nat | Low(counting', group, m) && m >= cap - 1
      ensures |live| + |passed| + |group| <= m + k
    {
      if c in group {
        assert |live| == |counting'[c]|;
        Subset(group, counting'.Keys);
      } else {
        assert forall d :: d in group ==> counting'[d] == counting[d];
        assert Low(counting, group, m);
      }
    }
  }

  lemma GatePass(cap: Positive, live: set<string>, passed: set<nat>, counting: map<nat, set<string>>, k: nat, c: nat)
    requires Gate(cap, live, passed, counting, k) && c !in passed && c in counting && |counting[c]| < cap
    ensures Gate(cap, live, passed + {c}, counting - {c}, k)
  {
    var counting' := counting - {c};
    assert counting'.Keys == counting.Keys - {c};
    forall group, m: nat | Low(counting', group, m) && m >= cap - 1
      ensures |live| + |passed + {c}| + |group| <= m + k
    {
      assert forall d :: d in group ==> counting'[d] == counting[d];
      assert Low(counting, group + {c}, m);
    }
  }

  /** Calls that give up. */
  lemma GateLeave(cap: Positive, live: set<string>, passed: set<nat>, counting: map<nat, set<string>>, k: nat, c: nat)
    requires Gate(cap, live, passed, counting, k)
    ensures Gate(cap, live, passed - {c}, counting - {c}, k)
  {
    var counting' := counting - {c};
    Subset(passed - {c}, passed);
    Subset(counting'.Keys, counting.Keys);
    forall group, m: nat | Low(counting', group, m) && m >= cap - 1
      ensures |live| + |passed - {c}| + |group| <= m + k
    {
      assert forall d :: d in group ==> counting'[d] == counting[d];
      assert Low(counting, group, m);
    }
  }

  lemma GateInsert(cap: Positive, live: set<string>, passed: set<nat>, counting: map<nat, set<string>>, k: nat, c: nat, slug: string)
    requires Gate(cap, live, passed, counting, k) && c in passed
    ensures Gate(cap, live + {slug}, passed - {c}, counting, k)
  {
    forall group, m: nat | Low(counting, group, m) && m >= cap - 1
      ensures |live + {slug}| + |passed - {c}| + |group| <= m + k
    {
      assert |live + {slug}| <= |live| + 1;
    }
  }

  lemma GateRemove(cap: Positive, live: set<string>, passed: set<nat>, counting: map<nat, set<string>>, counting': map<nat, set<string>>, k: nat, slug: string)
    requires Gate(cap, live, passed, counting, k) && counting'.Keys == counting.Keys
    requires forall c :: c in counting ==> counting[c] - {slug} <= counting'[c] && (slug !in live ==> counting'[c] == counting[c])
    ensures Gate(cap, live - {slug}, passed, counting', k)
  {
    forall group, m: nat | Low(counting', group, m) && m >= cap - 1
      ensures |live - {slug}| + |passed| + |group| <= m + k
    {
      if slug in live {
        forall c | c in group
          ensures |counting[c]| <= m + 1
        {
          Subset(counting[c] - {slug}, counting'[c]);
        }
        assert Low(counting, group, m + 1);
      } else {
        assert live - {slug} == live;
        assert Low(counting, group, m);
      }
    }
  }

  // ---- the two gates of the registry ----

  predicate IsPast(p: Phase) {
    p.Through? || (p.Counting? && p.ofToken)
  }

  /** Calls past the check of the server, or of this token. */
  function Passed(s: State): set<nat> {
    set c | c in s.calls && IsPast(s.calls[c])
  }

  function PassedFor(s: State, token: string): set<nat> {
    set c | c in s.calls && s.calls[c] == Through(token)
  }

  predicate CountsAll(p: Phase) {
    p.Counting? && !p.ofToken
  }

  predicate CountsFor(p: Phase, token: string) {
    p.Counting? && p.ofToken && p.token == token
  }

  function CountingAll(s: State): map<nat, set<string>> {
    map c | c in s.calls && CountsAll(s.calls[c]) :: s.calls[c].known
  }

  function CountingFor(s: State, token: string): map<nat, set<string>> {
    map c | c in s.calls && CountsFor(s.calls[c], token) :: s.calls[c].known
  }

  ghost predicate ServerGate(s: State) {
    if s.max == 0 then s.live == map[] && Passed(s) == {}
    else Gate(s.max, s.live.Keys, Passed(s), CountingAll(s), |s.calls|)
  }

  ghost predicate TokenGate(s: State, token: string) {
    s.tokenMax(token) > 0 ==>
      Gate(s.tokenMax(token), OfToken(s.live, token), PassedFor(s, token), CountingFor(s, token), |s.calls|)
  }

  lemma RoomFor(s: State, c: nat, token: string)
    requires c in s.calls
    ensures s.calls[c].Idle? ==> |Passed(s)| + |CountingAll(s).Keys| < |s.calls|
    ensures !CountsFor(s.calls[c], token) && s.calls[c] != Through(token) ==>
              |PassedFor(s, token)| + |CountingFor(s, token).Keys| < |s.calls|
  {
    var others := s.calls.Keys - {c};
    if s.calls[c].Idle? {
      Subset(Passed(s) + CountingAll(s).Keys, others);
      assert Passed(s) !! CountingAll(s).Keys;
    }
    if !CountsFor(s.calls[c], token) && s.calls[c] != Through(token) {
      Subset(PassedFor(s, token) + CountingFor(s, token).Keys, others);
      assert PassedFor(s, token) !! CountingFor(s, token).Keys;
    }
  }

  /** One call has gone on to `p`. */
  lemma ServerSets(s: State, s': State, c: nat, p: Phase)
    requires c in s.calls && s'.calls == s.calls[c := p]
    ensures |s'.calls| == |s.calls|
    ensures c in Passed(s) <==> IsPast(s.calls[c])
    ensures c in CountingAll(s) <==> CountsAll(s.calls[c])
    ensures c in CountingAll(s) ==> CountingAll(s)[c] == s.calls[c].known
    ensures Passed(s') == if IsPast(p) then Passed(s) + {c} else Passed(s) - {c}
    ensures CountingAll(s') == if CountsAll(p) then CountingAll(s)[c := p.known] else CountingAll(s) - {c}
  {
    assert s'.calls.Keys == s.calls.Keys;
  }

  lemma TokenSets(s: State, s': State, c: nat, p: Phase, token: string)
    requires c in s.calls && s'.calls == s.calls[c := p]
    ensures |s'.calls| == |s.calls|
    ensures c in PassedFor(s, token) <==> s.calls[c] == Through(token)
    ensures c in CountingFor(s, token) <==> CountsFor(s.calls[c], token)
    ensures c in CountingFor(s, token) ==> CountingFor(s, token)[c] == s.calls[c].known
    ensures PassedFor(s', token) == if p == Through(token) then PassedFor(s, token) + {c} else PassedFor(s, token) - {c}
    ensures CountingFor(s', token) == if CountsFor(p, token) then CountingFor(s, token)[c := p.known] else CountingFor(s, token) - {c}
  {
    assert s'.calls.Keys == s.calls.Keys;
  }

  lemma KeepServer(s: State, a: Step)
    requires AllHonest(s) && ServerGate(s) && Enabled(s, a)
    ensures ServerGate(Apply(s, a))
  {
    hide ServerGate, AllHonest, Apply;
    match a
    case Ask(c, token) => KeepServerAsk(s, c, token);
    case Look(c) => KeepServerLook(s, c);
    case Decide(c) => KeepServerDecide(s, c);
    case Insert(c, slug, again) => KeepServerInsert(s, c, slug, again);
    case Remove(slug) => KeepServerRemove(s, slug);
  }

  lemma KeepServerAsk(s: State, c: nat, token: string)
    requires ServerGate(s) && Enabled(s, Ask(c, token))
    ensures ServerGate(Apply(s, Ask(c, token)))
  {
    hide Gate, Passed, CountingAll;
    ServerSets(s, Apply(s, Ask(c, token)), c, Begin(s, token, false));
    assert c !in Passed(s) && Passed(s) - {c} == Passed(s);
    if s.max > 0 {
      RoomFor(s, c, token);
      GateEnter(s.max, s.live.Keys, Passed(s), CountingAll(s), |s.calls|, c);
    }
  }

  lemma KeepServerLook(s: State, c: nat)
    requires ServerGate(s) && Enabled(s, Look(c))
    ensures ServerGate(Apply(s, Look(c)))
  {
    hide Gate, Passed, CountingAll, InShard;
    var s' := Apply(s, Look(c));
    ServerSets(s, s', c, s'.calls[c]);
    assert Passed(s') == Passed(s);
    assert CountingAll(s') == CountingAll(s);
  }

  lemma DecideFacts(s: State, c: nat)
    requires AllHonest(s) && Enabled(s, Decide(c))
    ensures c in s.calls && s.calls[c].Counting? && |s.calls[c].known| <= s.calls[c].count
    ensures Apply(s, Decide(c)) == s.(calls := s.calls[c := Verdict(s, s.calls[c])])
  {
    HonestAtLast(s, c);
  }

  lemma ServerVerdict(s: State, p: Phase)
    requires p.Counting?
    ensures var q := Verdict(s, p);
            && !CountsAll(q) && (IsPast(q) <==> !q.Idle?) && (IsPast(p) <==> !CountsAll(p))
            && (CountsAll(p) && !q.Idle? ==> p.count < s.max)
  {
    hide Counted;
  }

  lemma KeepServerDecide(s: State, c: nat)
    requires AllHonest(s) && ServerGate(s) && Enabled(s, Decide(c))
    ensures ServerGate(Apply(s, Decide(c)))
  {
    hide Gate, Passed, CountingAll, AllHonest, Counted, Apply, Enabled, Verdict, CountsAll, IsPast;
    DecideFacts(s, c);
    var s', p := Apply(s, Decide(c)), Verdict(s, s.calls[c]);
    ServerVerdict(s, s.calls[c]);
    ServerSets(s, s', c, p);
    if s.max == 0 {
      assert p.Idle?;
    } else if p.Idle? {
      GateLeave(s.max, s.live.Keys, Passed(s), CountingAll(s), |s.calls|, c);
    } else if CountsAll(s.calls[c]) {
      GatePass(s.max, s.live.Keys, Passed(s), CountingAll(s), |s.calls|, c);
    } else {
      assert Passed(s') == Passed(s);
      assert CountingAll(s') == CountingAll(s);
    }
  }

  /** What an insert does, for the two gates. */
  lemma InsertFacts(s: State, c: nat, slug: string, again: bool, token: string)
    requires Enabled(s, Insert(c, slug, again))
    ensures var s' := Apply(s, Insert(c, slug, again));
            && (s' == s || s' == s.(live := s'.live, calls := s.calls[c := Idle]))
            && s'.live.Keys == s.live.Keys + (if slug in s.live then {} else {slug})
            && OfToken(s'.live, token) ==
                 OfToken(s.live, token) + (if slug !in s.live && s.calls[c].token == token then {slug} else {})
  {
  }

  lemma KeepServerInsert(s: State, c: nat, slug: string, again: bool)
    requires ServerGate(s) && Enabled(s, Insert(c, slug, again))
    ensures ServerGate(Apply(s, Insert(c, slug, again)))
  {
    hide Gate, Passed, CountingAll, Apply, OfToken;
    InsertFacts(s, c, slug, again, "");
    var s' := Apply(s, Insert(c, slug, again));
    if s' != s {
      ServerSets(s, s', c, Idle);
      assert CountingAll(s') == CountingAll(s);
      assert s.max > 0;
      if slug in s.live {
        GateLeave(s.max, s.live.Keys, Passed(s), CountingAll(s), |s.calls|, c);
        assert s'.live.Keys == s.live.Keys;
      } else {
        GateInsert(s.max, s.live.Keys, Passed(s), CountingAll(s), |s.calls|, c, slug);
      }
    }
  }

  /** A removed session is missing at most where it was still to be counted. */
  predicate Less(counting: map<nat, set<string>>, counting': map<nat, set<string>>, live: set<string>, slug: string) {
    && counting'.Keys == counting.Keys
    && forall c :: c in counting ==> counting[c] - {slug} <= counting'[c] && (slug !in live ==> counting'[c] == counting[c])
  }

  /** What a removal does to the calls. */
  lemma RemoveFacts(s: State, slug: string, token: string)
    ensures var s' := Apply(s, Remove(slug));
            && s' == s.(live := s'.live, calls := s'.calls) && s'.calls.Keys == s.calls.Keys && |s'.calls| == |s.calls|
            && s'.live.Keys == s.live.Keys - {slug} && OfToken(s'.live, token) == OfToken(s.live, token) - {slug}
            && forall c :: c in s.calls ==> s'.calls[c] == Without(s, s.calls[c], slug)
  {
    assert Apply(s, Remove(slug)).calls.Keys == s.calls.Keys;
  }

  /** The phase after the removal: of the same kind, and with no less to come but for the removed session. */
  predicate SameKind(s: State, p: Phase, p': Phase, slug: string, token: string) {
    && (IsPast(p') <==> IsPast(p)) && (CountsAll(p') <==> CountsAll(p))
    && (p' == Through(token) <==> p == Through(token)) && (CountsFor(p', token) <==> CountsFor(p, token))
    && (CountsAll(p) ==> p.known - {slug} <= p'.known && (slug !in s.live.Keys ==> p'.known == p.known))
    && (CountsFor(p, token) ==> p.known - {slug} <= p'.known && (slug !in OfToken(s.live, token) ==> p'.known == p.known))
  }

  lemma WithoutFacts(s: State, p: Phase, slug: string, token: string)
    requires Honest(s, p)
    ensures SameKind(s, p, Without(s, p, slug), slug, token)
  {
    hide ShardOf, OfToken;
  }

  lemma AllSameKind(s: State, slug: string, token: string)
    requires AllHonest(s)
    ensures var s' := Apply(s, Remove(slug));
            forall c :: c in s.calls ==> c in s'.calls && SameKind(s, s.calls[c], s'.calls[c], slug, token)
  {
    hide Without, Honest, AllHonest, Apply, OfToken, SameKind;
    RemoveFacts(s, slug, token);
    var s' := Apply(s, Remove(slug));
    forall c | c in s.calls
      ensures c in s'.calls && SameKind(s, s.calls[c], s'.calls[c], slug, token)
    {
      assert c in s.calls.Keys;
      HonestOne(s, c);
      WithoutFacts(s, s.calls[c], slug, token);
    }
  }

  lemma HonestOne(s: State, c: nat)
    requires AllHonest(s) && c in s.calls
    ensures Honest(s, s.calls[c])
  {
  }

  lemma RemovePassed(s: State, slug: string, token: string)
    requires AllHonest(s)
    ensures var s' := Apply(s, Remove(slug)); Passed(s') == Passed(s) && PassedFor(s', token) == PassedFor(s, token)
  {
    hide Without, AllHonest, Apply, OfToken, IsPast, CountsAll, CountsFor;
    RemoveFacts(s, slug, token);
    AllSameKind(s, slug, token);
  }

  lemma RemoveCounting(s: State, slug: string)
    requires AllHonest(s)
    ensures Less(CountingAll(s), CountingAll(Apply(s, Remove(slug))), s.live.Keys, slug)
  {
    hide Without, AllHonest, Apply, OfToken, IsPast, CountsAll, CountsFor;
    RemoveFacts(s, slug, "");
    AllSameKind(s, slug, "");
  }

  lemma RemoveCountingFor(s: State, slug: string, token: string)
    requires AllHonest(s)
    ensures Less(CountingFor(s, token), CountingFor(Apply(s, Remove(slug)), token), OfToken(s.live, token), slug)
  {
    hide Without, AllHonest, Apply, OfToken, IsPast, CountsAll, CountsFor;
    RemoveFacts(s, slug, token);
    AllSameKind(s, slug, token);
  }

  lemma KeepServerRemove(s: State, slug: string)
    requires AllHonest(s) && ServerGate(s)
    ensures ServerGate(Apply(s, Remove(slug)))
  {
    hide Gate, Passed, CountingAll, AllHonest, Apply;
    RemoveFacts(s, slug, "");
    RemovePassed(s, slug, "");
    RemoveCounting(s, slug);
    if s.max > 0 {
      GateRemove(s.max, s.live.Keys, Passed(s), CountingAll(s), CountingAll(Apply(s, Remove(slug))), |s.calls|, slug);
    }
  }

  lemma KeepToken(s: State, a: Step, token: string)
    requires AllHonest(s) && TokenGate(s, token) && Enabled(s, a)
    ensures TokenGate(Apply(s, a), token)
  {
    hide TokenGate, AllHonest, Apply;
    match a
    case Decide(c) => KeepTokenDecide(s, c, token);
    case Insert(c, slug, again) => KeepTokenInsert(s, c, slug, again, token);
    case Remove(slug) => KeepTokenRemove(s, slug, token);
    case _ => KeepTokenLook(s, a, token);
  }

  lemma KeepTokenLook(s: State, a: Step, token: string)
    requires TokenGate(s, token) && Enabled(s, a) && (a.Look? || a.Ask?)
    ensures TokenGate(Apply(s, a), token)
  {
    hide Gate, PassedFor, CountingFor, InShard, OfToken;
    var s' := Apply(s, a);
    TokenSets(s, s', a.c, s'.calls[a.c], token);
    assert PassedFor(s', token) == PassedFor(s, token);
    assert CountingFor(s', token) == CountingFor(s, token);
  }

  lemma VerdictFacts(s: State, p: Phase, token: string)
    requires p.Counting? && s.tokenMax(token) > 0
    ensures var q := Verdict(s, p);
            && (q == Through(token) ==> CountsFor(p, token) && p.count < s.tokenMax(token))
            && (CountsFor(q, token) ==> !CountsFor(p, token) && q.known == OfToken(s.live, token))
  {
    hide OfToken;
  }

  lemma KeepTokenDecide(s: State, c: nat, token: string)
    requires AllHonest(s) && TokenGate(s, token) && Enabled(s, Decide(c))
    ensures TokenGate(Apply(s, Decide(c)), token)
  {
    hide Gate, PassedFor, CountingFor, AllHonest, OfToken, Apply, Enabled, Verdict, CountsFor;
    DecideFacts(s, c);
    var cap, live, k := s.tokenMax(token), OfToken(s.live, token), |s.calls|;
    var s', p := Apply(s, Decide(c)), Verdict(s, s.calls[c]);
    TokenSets(s, s', c, p, token);
    if cap == 0 {
      return;
    }
    VerdictFacts(s, s.calls[c], token);
    if p == Through(token) {
      GatePass(cap, live, PassedFor(s, token), CountingFor(s, token), k, c);
    } else if CountsFor(p, token) {
      RoomFor(s, c, token);
      GateEnter(cap, live, PassedFor(s, token), CountingFor(s, token), k, c);
      assert PassedFor(s', token) == PassedFor(s, token);
    } else {
      GateLeave(cap, live, PassedFor(s, token), CountingFor(s, token), k, c);
    }
  }

  lemma KeepTokenInsert(s: State, c: nat, slug: string, again: bool, token: string)
    requires TokenGate(s, token) && Enabled(s, Insert(c, slug, again))
    ensures TokenGate(Apply(s, Insert(c, slug, again)), token)
  {
    hide Gate, PassedFor, CountingFor, Apply, OfToken;
    InsertFacts(s, c, slug, again, token);
    var s' := Apply(s, Insert(c, slug, again));
    var cap, live, k := s.tokenMax(token), OfToken(s.live, token), |s.calls|;
    if s' != s && cap > 0 {
      TokenSets(s, s', c, Idle, token);
      assert CountingFor(s', token) == CountingFor(s, token);
      if slug !in s.live && s.calls[c].token == token {
        GateInsert(cap, live, PassedFor(s, token), CountingFor(s, token), k, c, slug);
      } else {
        GateLeave(cap, live, PassedFor(s, token), CountingFor(s, token), k, c);
        assert OfToken(s'.live, token) == live;
      }
    }
  }

  lemma KeepTokenRemove(s: State, slug: string, token: string)
    requires AllHonest(s) && TokenGate(s, token)
    ensures TokenGate(Apply(s, Remove(slug)), token)
  {
    hide Gate, PassedFor, CountingFor, AllHonest, OfToken, Apply;
    RemoveFacts(s, slug, token);
    RemovePassed(s, slug, token);
    RemoveCountingFor(s, slug, token);
    if s.tokenMax(token) > 0 {
      GateRemove(s.tokenMax(token), OfToken(s.live, token), PassedFor(s, token), CountingFor(s, token),
                 CountingFor(Apply(s, Remove(slug)), token), |s.calls|, slug);
    }
  }

  // ---- runs ----

  predicate Possible(s: State, run: seq<Step>)
    decreases |run|
  {
    run == [] || (Enabled(s, run[0]) && Possible(Apply(s, run[0]), run[1..]))
  }

  function After(s: State, run: seq<Step>): State
    requires Possible(s, run)
    decreases |run|
  {
    if run == [] then s else After(Apply(s, run[0]), run[1..])
  }

  lemma SameCalls(s: State, a: Step)
    requires Enabled(s, a)
    ensures var e := Apply(s, a); e.max == s.max && e.tokenMax == s.tokenMax && e.calls.Keys == s.calls.Keys
  {
    hide Without, InShard, Verdict, Begin;
  }

  lemma {:induction false} KeepRun(s: State, run: seq<Step>, token: string)
    requires AllHonest(s) && ServerGate(s) && TokenGate(s, token) && Possible(s, run)
    ensures var e := After(s, run);
            ServerGate(e) && TokenGate(e, token) && e.max == s.max && e.tokenMax == s.tokenMax && e.calls.Keys == s.calls.Keys
    decreases |run|
  {
    hide AllHonest, ServerGate, TokenGate, Enabled, Apply;
    if run != [] {
      KeepHonest(s, run[0]);
      KeepServer(s, run[0]);
      KeepToken(s, run[0], token);
      SameCalls(s, run[0]);
      KeepRun(Apply(s, run[0]), run[1..], token);
    }
  }

  function Start(max: nat, tokenMax: string -> nat, shards: Positive, hash: string -> nat, calls: set<nat>): State {
    State(max, tokenMax, shards, hash, map[], map c | c in calls :: Idle)
  }

  lemma StartGates(s: State, token: string)
    requires s.live == map[] && forall c :: c in s.calls ==> s.calls[c].Idle?
    ensures AllHonest(s) && ServerGate(s) && TokenGate(s, token)
  {
    assert Passed(s) == {} && PassedFor(s, token) == {} && OfToken(s.live, token) == {};
    assert CountingAll(s) == map[] && CountingFor(s, token) == map[];
    forall group, m: nat | Low(map[], group, m)
      ensures |group| == 0
    {
      assert group == {};
    }
  }

  /**
   * With at most `|calls|` calls under way at a time, in any interleaving of their counts and inserts with removals: the
   * server never has more than `max - 1 + |calls|` live sessions, and a token with a limit no more than its limit
   * `- 1 + |calls|`.
   */
  lemma OvershootBounded(max: nat, tokenMax: string -> nat, shards: Positive, hash: string -> nat, calls: set<nat>, run: seq<Step>, token: string)
    requires Possible(Start(max, tokenMax, shards, hash, calls), run)
    ensures var e := After(Start(max, tokenMax, shards, hash, calls), run);
            && |e.live| <= (if max == 0 then 0 else max - 1 + |calls|)
            && (tokenMax(token) > 0 ==> |OfToken(e.live, token)| <= tokenMax(token) - 1 + |calls|)
  {
    hide Possible, After, Gate, AllHonest, OfToken;
    var s := Start(max, tokenMax, shards, hash, calls);
    assert s.calls.Keys == calls;
    StartGates(s, token);
    KeepRun(s, run, token);
    var e := After(s, run);
    assert |e.calls.Keys| == |e.calls| == |calls| && |e.live.Keys| == |e.live|;
    if max > 0 {
      GateBounds(max, e.live.Keys, Passed(e), CountingAll(e), |e.calls|);
    }
    if tokenMax(token) > 0 {
      GateBounds(tokenMax(token), OfToken(e.live, token), PassedFor(e, token), CountingFor(e, token), |e.calls|);
    }
  }

  // ---- the bound is met ----

  ghost predicate Reaches(s: State, e: State) {
    exists run :: Possible(s, run) && After(s, run) == e
  }

  lemma Stay(s: State)
    ensures Reaches(s, s)
  {
    assert Possible(s, []) && After(s, []) == s;
  }

  lemma {:induction false} Chain(s: State, a: seq<Step>, b: seq<Step>)
    requires Possible(s, a) && Possible(After(s, a), b)
    ensures Possible(s, a + b) && After(s, a + b) == After(After(s, a), b)
    decreases |a|
  {
    hide Enabled, Apply;
    if a == [] {
      assert a + b == b;
    } else {
      Chain(Apply(s, a[0]), a[1..], b);
      assert (a + b)[0] == a[0] && (a + b)[1..] == a[1..] + b;
    }
  }

  lemma ThenDoes(s: State, m: State, a: Step)
    requires Reaches(s, m) && Enabled(m, a)
    ensures Reaches(s, Apply(m, a))
  {
    hide Enabled, Apply;
    var run :| Possible(s, run) && After(s, run) == m;
    assert [a][1..] == [];
    assert Possible(m, [a]) && After(m, [a]) == Apply(m, a);
    Chain(s, run, [a]);
  }

  // ---- one call counts while nothing else happens ----

  function Put(s: State, c: nat, p: Phase): State {
    s.(calls := s.calls[c := p])
  }

  function Seen(s: State, slugs: set<string>, v: nat): set<string> {
    set slug | slug in slugs && ShardOf(s, slug) < v
  }

  /** The call has visited `v` shards. */
  function Halfway(s: State, token: string, ofToken: bool, v: nat): Phase {
    var slugs := Counted(s.live, token, ofToken);
    Counting(token, ofToken, v, |Seen(s, slugs, v)|, slugs)
  }

  lemma SeenOneMore(s: State, slugs: set<string>, v: nat)
    ensures |Seen(s, slugs, v + 1)| == |Seen(s, slugs, v)| + |InShard(s, slugs, v)|
  {
    hide ShardOf;
    assert Seen(s, slugs, v + 1) == Seen(s, slugs, v) + InShard(s, slugs, v);
  }

  lemma SeenNone(s: State, slugs: set<string>)
    ensures Seen(s, slugs, 0) == {} && Seen(s, slugs, s.shards) == slugs
  {
  }

  lemma {:induction false} LooksThrough(start: State, s: State, c: nat, token: string, ofToken: bool, v: nat)
    requires c in s.calls && v <= s.shards && Reaches(start, Put(s, c, Begin(s, token, ofToken)))
    ensures Reaches(start, Put(s, c, Halfway(s, token, ofToken, v)))
    decreases v
  {
    hide Reaches, Counted, InShard, Seen;
    var slugs := Counted(s.live, token, ofToken);
    SeenNone(s, slugs);
    if v > 0 {
      LooksThrough(start, s, c, token, ofToken, v - 1);
      SeenOneMore(s, slugs, v - 1);
      LookFrom(s, c, token, ofToken, v - 1);
      ThenDoes(start, Put(s, c, Halfway(s, token, ofToken, v - 1)), Look(c));
    }
  }

  lemma LookFrom(s: State, c: nat, token: string, ofToken: bool, v: nat)
    requires c in s.calls && v < s.shards
    ensures var m := Put(s, c, Halfway(s, token, ofToken, v));
            Enabled(m, Look(c)) && Apply(m, Look(c)) == Put(s, c, Halfway(s, token, ofToken, v + 1))
  {
    hide Counted, Seen;
    var slugs := Counted(s.live, token, ofToken);
    var m := Put(s, c, Halfway(s, token, ofToken, v));
    SeenOneMore(s, slugs, v);
    assert InShard(m, slugs, v) == InShard(s, slugs, v);
    assert m.calls[c := Halfway(s, token, ofToken, v + 1)] == s.calls[c := Halfway(s, token, ofToken, v + 1)];
  }

  /** With everything counted the call decides. */
  lemma Decides(start: State, s: State, c: nat, token: string, ofToken: bool)
    requires c in s.calls && Reaches(start, Put(s, c, Begin(s, token, ofToken)))
    requires |Counted(s.live, token, ofToken)| < if ofToken then s.tokenMax(token) else s.max
    ensures Reaches(start, Put(s, c, if !ofToken && s.tokenMax(token) > 0 then Begin(s, token, true) else Through(token)))
  {
    hide Reaches, Counted, Seen;
    LooksThrough(start, s, c, token, ofToken, s.shards);
    SeenNone(s, Counted(s.live, token, ofToken));
    var m := Put(s, c, Halfway(s, token, ofToken, s.shards));
    ThenDoes(start, m, Decide(c));
    assert m.calls[c := Through(token)] == s.calls[c := Through(token)];
    assert m.calls[c := Begin(s, token, true)] == s.calls[c := Begin(s, token, true)];
  }

  /** Below both caps it gets through. */
  lemma Passes(start: State, s: State, c: nat, token: string)
    requires c in s.calls && s.calls[c].Idle? && Reaches(start, s)
    requires |s.live.Keys| < s.max && (s.tokenMax(token) > 0 ==> |OfToken(s.live, token)| < s.tokenMax(token))
    ensures Reaches(start, Put(s, c, Through(token)))
  {
    hide Reaches, OfToken;
    ThenDoes(start, s, Ask(c, token));
    Decides(start, s, c, token, false);
    if s.tokenMax(token) > 0 {
      Decides(start, s, c, token, true);
    }
  }

  // ---- all calls pass the check for the last free place ----

  function UpTo(n: nat): (calls: set<nat>)
    ensures |calls| == n && forall c: nat :: c in calls <==> c < n
  {
    if n == 0 then {} else UpTo(n - 1) + {n - 1 as nat}
  }

  function Name(i: nat): (slug: string)
    ensures |slug| == i
  {
    seq(i, _ => 'a')
  }

  function Names(n: nat): (slugs: set<string>)
    ensures |slugs| == n && forall slug :: slug in slugs ==> |slug| < n
  {
    if n == 0 then {} else Names(n - 1) + {Name(n - 1)}
  }

  /** A registry's settings, and how many calls there are. */
  datatype Setup = Setup(max: nat, tokenMax: string -> nat, shards: Positive, hash: string -> nat, token: string, k: nat)

  /** The smaller of the caps that are on for the token. */
  function Tight(x: Setup): nat {
    if x.tokenMax(x.token) == 0 || x.max <= x.tokenMax(x.token) then x.max else x.tokenMax(x.token)
  }

  /** `n` sessions of the token, and the calls from `j` up to `i` past both checks. */
  function Scene(x: Setup, n: nat, i: nat, j: nat): State {
    State(x.max, x.tokenMax, x.shards, x.hash, map slug | slug in Names(n) :: x.token,
          map c | c in UpTo(x.k) :: if j <= c < i then Through(x.token) else Idle)
  }

  /** The scene, seen from outside. */
  lemma Setting(x: Setup, n: nat, i: nat, j: nat)
    ensures var s := Scene(x, n, i, j);
            && s.max == x.max && s.tokenMax == x.tokenMax && s.live.Keys == OfToken(s.live, x.token) == Names(n)
            && s.calls.Keys == UpTo(x.k) && forall c :: c in s.calls ==> s.calls[c] == if j <= c < i then Through(x.token) else Idle
  {
  }

  lemma OnePast(x: Setup, n: nat, i: nat)
    requires i < x.k
    ensures Put(Scene(x, n, i, 0), i, Through(x.token)) == Scene(x, n, i + 1, 0)
  {
    hide Names;
    assert Scene(x, n, i, 0).calls[i := Through(x.token)] == Scene(x, n, i + 1, 0).calls;
  }

  lemma PassOne(start: State, x: Setup, n: nat, i: nat)
    requires n < Tight(x) && i < x.k && Reaches(start, Scene(x, n, i, 0))
    ensures Reaches(start, Scene(x, n, i + 1, 0))
  {
    hide Reaches, Scene, OfToken;
    Setting(x, n, i, 0);
    OnePast(x, n, i);
    Passes(start, Scene(x, n, i, 0), i, x.token);
  }

  lemma OneLive(x: Setup, n: nat, i: nat, j: nat)
    ensures var s := Scene(x, n, i, j);
            Name(n) !in s.live && s.live[Name(n) := x.token] == Scene(x, n + 1, i, j + 1).live
  {
    hide Name;
    assert Names(n + 1) == Names(n) + {Name(n)};
    assert Scene(x, n, i, j).live[Name(n) := x.token] == Scene(x, n + 1, i, j + 1).live;
  }

  lemma OneIdle(x: Setup, n: nat, i: nat, j: nat)
    requires j < i <= x.k
    ensures var s := Scene(x, n, i, j); j in s.calls && s.calls[j := Idle] == Scene(x, n + 1, i, j + 1).calls
  {
    hide Names;
  }

  lemma OneIn(x: Setup, n: nat, i: nat, j: nat)
    requires j < i <= x.k
    ensures var s := Scene(x, n, i, j);
            && Name(n) !in s.live && j in s.calls
            && s.(live := s.live[Name(n) := x.token], calls := s.calls[j := Idle]) == Scene(x, n + 1, i, j + 1)
  {
    OneLive(x, n, i, j);
    OneIdle(x, n, i, j);
  }

  lemma InsertOne(start: State, x: Setup, n: nat, i: nat, j: nat)
    requires j < i <= x.k && Reaches(start, Scene(x, n, i, j))
    ensures Reaches(start, Scene(x, n + 1, i, j + 1))
  {
    hide Reaches, Scene;
    Setting(x, n, i, j);
    OneIn(x, n, i, j);
    ThenDoes(start, Scene(x, n, i, j), Insert(j, Name(n), false));
  }

  lemma {:induction false} Fill(x: Setup, n: nat)
    requires n < Tight(x) && x.k > 0
    ensures Reaches(Scene(x, 0, 0, 0), Scene(x, n, 0, 0))
    decreases n
  {
    hide Reaches, Scene;
    var start := Scene(x, 0, 0, 0);
    if n == 0 {
      Stay(start);
    } else {
      Fill(x, n - 1);
      PassOne(start, x, n - 1, 0);
      InsertOne(start, x, n - 1, 1, 0);
      AllIdle(x, n);
    }
  }

  lemma AllIdle(x: Setup, n: nat)
    ensures Scene(x, n, 1, 1) == Scene(x, n, 0, 0)
  {
  }

  lemma {:induction false} PassAll(x: Setup, i: nat)
    requires Tight(x) > 0 && x.k > 0 && i <= x.k
    ensures Reaches(Scene(x, 0, 0, 0), Scene(x, Tight(x) - 1, i, 0))
    decreases i
  {
    hide Reaches, Scene, Tight;
    if i == 0 {
      Fill(x, Tight(x) - 1);
    } else {
      PassAll(x, i - 1);
      PassOne(Scene(x, 0, 0, 0), x, Tight(x) - 1, i - 1);
    }
  }

  lemma {:induction false} InsertAll(x: Setup, j: nat)
    requires Tight(x) > 0 && x.k > 0 && j <= x.k
    ensures Reaches(Scene(x, 0, 0, 0), Scene(x, Tight(x) - 1 + j, x.k, j))
    decreases j
  {
    hide Reaches, Scene, Tight;
    if j == 0 {
      PassAll(x, x.k);
    } else {
      InsertAll(x, j - 1);
      InsertOne(Scene(x, 0, 0, 0), x, Tight(x) - 1 + (j - 1), x.k, j - 1);
    }
  }

  lemma Empty(x: Setup)
    ensures Scene(x, 0, 0, 0) == Start(x.max, x.tokenMax, x.shards, x.hash, UpTo(x.k))
  {
  }

  /**
   * The bound is met, for any settings, any token and any number of calls: all of them can pass the check for the last
   * free place. The tighter of the two caps decides, be it the server's or the token's own.
   */
  lemma OvershootReached(x: Setup)
    requires x.max > 0 && x.k > 0
    ensures var s := Start(x.max, x.tokenMax, x.shards, x.hash, UpTo(x.k));
            exists run :: Possible(s, run) && |OfToken(After(s, run).live, x.token)| == |After(s, run).live| == Tight(x) - 1 + x.k
  {
    hide Possible, After, OfToken, Scene, Start, UpTo, Names;
    InsertAll(x, x.k);
    Empty(x);
    Crowd(x, Tight(x) - 1 + x.k, x.k, x.k);
    var s, e := Scene(x, 0, 0, 0), Scene(x, Tight(x) - 1 + x.k, x.k, x.k);
    var run :| Possible(s, run) && After(s, run) == e;
  }

  lemma Crowd(x: Setup, n: nat, i: nat, j: nat)
    ensures |Scene(x, n, i, j).live| == |OfToken(Scene(x, n, i, j).live, x.token)| == n
  {
    Setting(x, n, i, j);
    assert |Scene(x, n, i, j).live| == |Scene(x, n, i, j).live.Keys|;
  }
}

/** The registry, one call at a time. */
module Registry {
  import opened Bytes

  const MAX_ALLOC_ATTEMPTS: nat := 16

  datatype AllocError = ServerFull(active: nat, max: nat) | Exhausted(attempts: nat) | Taken

  datatype Result<+T> = Ok(value: T) | Err(error: AllocError)

  /** A session: its slug and the token it was registered with. */
  datatype Entry = Entry(slug: string, token: string)

  function LowerChar(c: char): char {
    if 'A' <= c <= 'Z' then c + 32 as char else c
  }

  /** `to_ascii_lowercase`. */
  function Lower(s: string): (t: string)
    ensures |t| == |s| && forall i :: 0 <= i < |s| ==> t[i] == LowerChar(s[i])
  {
    seq(|s|, i requires 0 <= i < |s| => LowerChar(s[i]))
  }

  function OfToken(sessions: map<string, Entry>, token: string): set<string> {
    set slug | slug in sessions && sessions[slug].token == token
  }

  class Registry {
    const maxSessions: nat
    var sessions: map<string, Entry>
    var customHosts: map<string, string>

    /** The cap is kept exactly, and every custom host leads to a live session. */
    ghost predicate Valid()
      reads this
    {
      && |sessions| <= maxSessions
      && (forall slug :: slug in sessions ==> sessions[slug].slug == slug)
      && (forall host :: host in customHosts ==> customHosts[host] in sessions && host == Lower(host))
    }

    constructor (maxSessions: nat)
      ensures Valid() && this.maxSessions == maxSessions && sessions == map[] && customHosts == map[]
    {
      this.maxSessions := maxSessions;
      sessions, customHosts := map[], map[];
    }

    /** Where the new session goes: under its own name, and under its custom host if it has one. */
    ghost predicate Entered(old_sessions: map<string, Entry>, old_hosts: map<string, string>, e: Entry, host: Option<string>)
      reads this
    {
      && e.slug !in old_sessions && sessions == old_sessions[e.slug := e]
      && customHosts == if host.Some? then old_hosts[Lower(host.value) := e.slug] else old_hosts
    }

    method Enter(e: Entry, host: Option<string>)
      requires Valid() && e.slug !in sessions && |sessions| < maxSessions
      modifies this
      ensures Valid() && Entered(old(sessions), old(customHosts), e, host)
    {
      sessions := sessions[e.slug := e];
      if host.Some? {
        LowerTwice(host.value);
        customHosts := customHosts[Lower(host.value) := e.slug];
      }
    }

    /** `random` are the slugs the random source would offer. */
    method Allocate(token: string, tokenMax: nat, preferred: Option<string>, host: Option<string>, random: seq<string>)
      returns (r: Result<Entry>)
      requires Valid() && |random| == MAX_ALLOC_ATTEMPTS
      modifies this
      ensures Valid()
      ensures r.Ok? ==> Entered(old(sessions), old(customHosts), r.value, host) && r.value.token == token
      ensures r.Ok? ==> r.value.slug == if preferred.Some? then preferred.value else r.value.slug
      ensures r.Ok? && preferred.None? ==> r.value.slug in random
      ensures r.Err? ==> sessions == old(sessions) && customHosts == old(customHosts)
      ensures var mine := set s | s in old(sessions) && old(sessions)[s].token == token;
              var full := |old(sessions)| >= maxSessions || (tokenMax > 0 && |mine| >= tokenMax);
              && (r.Err? && r.error.ServerFull? <==> full)
              && (|old(sessions)| >= maxSessions ==> r == Err(ServerFull(|old(sessions)|, maxSessions)))
              && (full && |old(sessions)| < maxSessions ==> r == Err(ServerFull(|mine|, tokenMax)))
              && (r.Err? && r.error.Exhausted? ==> r.error.attempts == 16)
              && (r.Err? && r.error.Taken? <==> !full && preferred.Some? && preferred.value in old(sessions))
              && (r.Err? && r.error.Exhausted? <==> !full && preferred.None? && forall s :: s in random ==> s in old(sessions))
    {
      if |sessions| >= maxSessions {
        return Err(ServerFull(|sessions|, maxSessions));
      }
      if tokenMax > 0 {
        var active := |OfToken(sessions, token)|;
        if active >= tokenMax {
          return Err(ServerFull(active, tokenMax));
        }
      }
      if preferred.Some? {
        if preferred.value in sessions {
          return Err(Taken);
        }
        var e := Entry(preferred.value, token);
        Enter(e, host);
        return Ok(e);
      }
      for attempt := 0 to MAX_ALLOC_ATTEMPTS
        invariant sessions == old(sessions) && customHosts == old(customHosts)
        invariant forall i :: 0 <= i < attempt ==> random[i] in sessions
      {
        var slug := random[attempt];
        if slug !in sessions {
          var e := Entry(slug, token);
          Enter(e, host);
          assert random[attempt] in random;
          return Ok(e);
        }
      }
      return Err(Exhausted(MAX_ALLOC_ATTEMPTS));
    }

    function Lookup(slug: string): Option<Entry>
      reads this
    {
      if slug in sessions then Some(sessions[slug]) else None
    }

    /** A custom host is looked up whatever its case, and while it is known it leads somewhere. */
    method CustomHost(host: string) returns (r: Option<Entry>)
      requires Valid()
      ensures r == if Lower(host) in customHosts then Some(sessions[customHosts[Lower(host)]]) else None
    {
      var key := Lower(host);
      if key !in customHosts {
        return None;
      }
      return Lookup(customHosts[key]);
    }

    /** Removing a session takes all hosts that led to it along, and nothing else. */
    method Remove(slug: string) returns (removed: Option<Entry>)
      requires Valid()
      modifies this
      ensures Valid() && removed == old(Lookup(slug))
      ensures sessions == old(sessions) - {slug}
      ensures customHosts == map h | h in old(customHosts) && old(customHosts)[h] != slug :: old(customHosts)[h]
    {
      removed := Lookup(slug);
      if removed.Some? {
        Smaller(sessions, slug);
        sessions := sessions - {slug};
        customHosts := map h | h in customHosts && customHosts[h] != slug :: customHosts[h];
      }
    }
  }

  lemma Smaller(m: map<string, Entry>, slug: string)
    ensures |m - {slug}| <= |m|
  {
    var a, b := (m - {slug}).Keys, m.Keys;
    assert b == a + (b - a);
  }

  /** The two characters are one letter in two cases, or the same. */
  predicate Twins(a: char, b: char) {
    a == b || (65 <= a as int <= 90 && b as int == a as int + 32) || (65 <= b as int <= 90 && a as int == b as int + 32)
  }

  /** Two hosts are one exactly when they differ in the case of ASCII letters alone. */
  lemma LowerIff(s: string, t: string)
    ensures Lower(s) == Lower(t) <==> |s| == |t| && forall i :: 0 <= i < |s| ==> Twins(s[i], t[i])
  {
    if Lower(s) == Lower(t) {
      forall i | 0 <= i < |s|
        ensures Twins(s[i], t[i])
      {
        assert Lower(s)[i] == Lower(t)[i];
      }
    }
  }

  lemma LowerTwice(s: string)
    ensures Lower(Lower(s)) == Lower(s)
  {
  }
}
